/** The cluster harness: full-mesh rounds of sessions, the check that all vectors agree, and the
    bound up to which a node may compact.
 */
module Harness {
  import opened Stamps
  import opened Events
  import opened Logs
  import opened LogHistory
  import opened Cluster
  import opened Nodes
  import opened Sync

  // ---------------------------------------------------------------- what all nodes hold between them

  /** Everything any node holds: its origin holds it too. */
  ghost function UnionOf(net: Net): Accepted
  {
    map id | id in (set n, id | n in net && id in net[n].h.accepted && id.node == n :: id) :: net[id.node].h.accepted[id]
  }

  lemma UnionHasAll(net: Net, i: NodeId)
    requires NetInv(net) && i in net
    ensures Extends(net[i].h.accepted, UnionOf(net))
  {
  }

  /** The cluster is sound, and every node holds what it held and nothing outside the union. */
  ghost predicate Progress(start: Net, net: Net)
  {
    && NetInv(net) && net.Keys == start.Keys
    && forall k :: k in net ==> Within(start[k].h.accepted, net[k].h.accepted, UnionOf(start))
  }

  lemma NoProgressYet(net: Net)
    requires NetInv(net)
    ensures Progress(net, net)
  {
    hide NetInv, UnionOf;
    forall k | k in net
      ensures Within(net[k].h.accepted, net[k].h.accepted, UnionOf(net))
    {
      UnionHasAll(net, k);
    }
  }

  /** A session keeps progress; a complete one leaves the client with all the server held. */
  lemma SessionProgress(start: Net, net: Net, i: NodeId, j: NodeId, p': Peer, q': Peer, ok: bool, rep: Report)
    requires Progress(start, net) && i in net && j in net && i != j
    requires SessionSound(net, i, j, net[i], net[j], p', q', ok, rep)
    ensures Progress(start, net[i := p'][j := q'])
    ensures Extends(net[i].h.accepted, p'.h.accepted) && Extends(net[j].h.accepted, q'.h.accepted)
    ensures ok ==> Extends(start[j].h.accepted, p'.h.accepted)
  {
    hide NetInv, UnionOf, Within, Extends;
    var mine, theirs, all := net[i].h.accepted, net[j].h.accepted, UnionOf(start);
    var net' := net[i := p'][j := q'];
    assert Within(start[i].h.accepted, mine, all) && Within(start[j].h.accepted, theirs, all);
    WithinUnion(start[i].h.accepted, mine, p'.h.accepted, mine, theirs, all);
    WithinUnion(start[j].h.accepted, theirs, q'.h.accepted, mine, theirs, all);
    if ok { WholeUnion(start[j].h.accepted, mine, theirs, all); }
    forall k | k in net'
      ensures Within(start[k].h.accepted, net'[k].h.accepted, all)
    {
      assert Within(start[k].h.accepted, net[k].h.accepted, all);
    }
  }

  lemma WithinUnion(a: Accepted, b: Accepted, c: Accepted, mine: Accepted, theirs: Accepted, all: Accepted)
    requires Within(a, b, all) && Within(b, c, mine + theirs)
    requires exists x :: Within(x, mine, all)
    requires exists x :: Within(x, theirs, all)
    ensures Within(a, c, all) && Extends(b, c)
  {
  }

  lemma WholeUnion(a: Accepted, mine: Accepted, theirs: Accepted, all: Accepted)
    requires Within(a, theirs, all)
    ensures Extends(a, mine + theirs)
  {
  }

  lemma HoldsAllIsUnion(start: Net, net: Net, i: NodeId)
    requires Progress(start, net) && i in net && forall k :: k in start ==> Extends(start[k].h.accepted, net[i].h.accepted)
    ensures net[i].h.accepted == UnionOf(start)
  {
  }

  lemma GrownStaysUnion(start: Net, net: Net, net': Net, i: NodeId)
    requires Progress(start, net') && i in net && i in net' && net[i].h.accepted == UnionOf(start)
    requires Extends(net[i].h.accepted, net'[i].h.accepted)
    ensures net'[i].h.accepted == UnionOf(start)
  {
    hide NetInv, UnionOf;
    assert Within(start[i].h.accepted, net'[i].h.accepted, UnionOf(start));
  }

  function Trues(oks: seq<bool>): nat
  {
    if oks == [] then 0 else Trues(oks[..|oks| - 1]) + if oks[|oks| - 1] then 1 else 0
  }

  lemma TruesMore(oks: seq<bool>, ok: bool, all: seq<seq<bool>>, mine: seq<bool>)
    ensures Trues(oks + [ok]) == Trues(oks) + if ok then 1 else 0
    ensures AllTrues(all + [mine]) == AllTrues(all) + Trues(mine)
    ensures Trues([]) == 0 && AllTrues([]) == 0
  {
    assert (oks + [ok])[..|oks|] == oks && (all + [mine])[..|all|] == all;
  }

  function AllTrues(oks: seq<seq<bool>>): nat
  {
    if oks == [] then 0 else AllTrues(oks[..|oks| - 1]) + Trues(oks[|oks| - 1])
  }

  // ---------------------------------------------------------------- vectors pointwise

  ghost predicate Below(a: VersionVector, b: VersionVector)
  {
    forall n :: At(a, n) <= At(b, n)
  }

  ghost predicate Meets(a: VersionVector, b: VersionVector, r: VersionVector)
  {
    forall n :: At(r, n) == if At(a, n) < At(b, n) then At(a, n) else At(b, n)
  }

  lemma BelowItself(a: VersionVector)
    ensures Below(a, a)
  {
  }

  lemma MeetIsGreatest(a: VersionVector, b: VersionVector, r: VersionVector)
    requires Meets(a, b, r)
    ensures Below(r, b) && (forall w :: Below(w, a) && Below(w, b) ==> Below(w, r)) && (forall w :: Below(a, w) ==> Below(r, w))
  {
  }

  lemma AckedIsBelow(net: Net, i: NodeId, j: NodeId)
    requires j in net && j != i
    ensures forall vv :: AckedByPeers(net, i, vv) ==> Below(vv, QueryVector(net[j].h.log))
  {
  }

  lemma BelowIsAcked(net: Net, i: NodeId, vv: VersionVector)
    requires forall j :: j in net && j != i ==> Below(vv, QueryVector(net[j].h.log))
    ensures AckedByPeers(net, i, vv)
  {
  }

  // ---------------------------------------------------------------- the harness

  class ClusterHarness {
    const ids: seq<NodeId>
    const nodes: map<NodeId, Node>
    const slow: NodeId
    const batchSize: int

    // every object of every node
    ghost const parts: set<object>
    // the nodes as values
    ghost var net: Net

    ghost predicate Owned(i: NodeId)
      requires i in nodes
    {
      nodes[i] in parts && nodes[i].clk in parts && nodes[i].log in parts
    }

    ghost predicate Static()
    {
      && this !in parts
      && (forall i :: i in ids <==> i in nodes)
      && (forall i :: i in nodes ==> Owned(i))
      && (forall i, j :: i in nodes && j in nodes && i != j ==> Apart(nodes[i], nodes[j]))
    }

    ghost predicate Tracks(i: NodeId)
      requires i in nodes
      reads nodes[i], nodes[i].clk, nodes[i].log, this`net
    {
      nodes[i].id == i && nodes[i].Valid() && i in net && net[i] == nodes[i].ThePeer()
    }

    ghost predicate Valid()
      reads this, parts
    {
      Static() && net.Keys == nodes.Keys && forall i :: i in nodes ==> Owned(i) && Tracks(i)
    }

    lemma StaticFacts(i: NodeId, j: NodeId)
      requires Static() && i in nodes && j in nodes
      ensures this !in parts && Owned(i) && Owned(j) && (i != j ==> Apart(nodes[i], nodes[j]))
    {
    }

    constructor (ids: seq<NodeId>, nodes: map<NodeId, Node>, slow: NodeId, batchSize: int, ghost parts: set<object>)
      requires forall i :: i in nodes ==> nodes[i] in parts && nodes[i].clk in parts && nodes[i].log in parts
      requires (forall i :: i in ids <==> i in nodes) && forall i :: i in nodes ==> nodes[i].id == i && nodes[i].Valid()
      requires forall i, j :: i in nodes && j in nodes && i != j ==> Apart(nodes[i], nodes[j])
      ensures Valid() && this.ids == ids && this.nodes == nodes && this.slow == slow
    {
      this.ids := ids;
      this.nodes := nodes;
      this.slow := slow;
      this.batchSize := batchSize;
      this.net := map i | i in nodes :: nodes[i].ThePeer();
      this.parts := parts;
    }

    /** All ids, the slow peer only at the end. */
    ghost predicate IsOrder(order: seq<NodeId>)
    {
      && (forall i :: i in ids ==> i in order)
      && (forall i :: i in order ==> i in ids || i == slow)
      && (if slow == "" then order == ids else order != [] && order[|order| - 1] == slow && slow !in order[..|order| - 1])
    }

    lemma OrderHasAll(order: seq<NodeId>)
      requires IsOrder(order) && Static()
      ensures forall i :: i in nodes ==> i in order
    {
    }

    /** The ids with the slow peer moved to the end. */
    method SyncOrder() returns (order: seq<NodeId>)
      ensures IsOrder(order)
    {
      if slow == "" {
        return ids;
      }
      var rest: seq<NodeId> := [];
      for k := 0 to |ids|
        invariant forall i :: i in rest <==> i in ids[..k] && i != slow
      {
        assert ids[..k + 1] == ids[..k] + [ids[k]];
        if ids[k] != slow {
          rest := rest + [ids[k]];
        }
      }
      assert ids[..|ids|] == ids;
      order := rest + [slow];
      assert order[..|order| - 1] == rest;
    }

    method RunSession(src: NodeId, dst: NodeId, cut: Budget) returns (ok: bool, ghost rep: Report)
      requires Valid() && src in nodes && dst in nodes && src != dst
      modifies this`net, nodes[src], nodes[src].log, nodes[src].clk, nodes[dst], nodes[dst].log, nodes[dst].clk
      ensures Tracks(src) && Tracks(dst)
      ensures net == old(net)[src := net[src]][dst := net[dst]]
      ensures SessionSound(old(net), src, dst, old(net)[src], old(net)[dst], net[src], net[dst], ok, rep)
      ensures cut.None? && NetInv(old(net)) ==> ok
    {
      hide NetInv, SessionSound, Static, Node.ThePeer, Node.Valid;
      StaticFacts(src, dst);
      ok, rep := SyncOnce(nodes[src], nodes[dst], batchSize, batchSize, cut, net);
      net := net[src := nodes[src].ThePeer()][dst := nodes[dst].ThePeer()];
    }

    /** A session between two of the nodes leaves the others as they were. */
    method Session(src: NodeId, dst: NodeId, cut: Budget) returns (ok: bool, ghost rep: Report)
      requires Valid() && src in nodes && dst in nodes && src != dst
      modifies this`net, parts
      ensures Valid() && net == old(net)[src := net[src]][dst := net[dst]]
      ensures SessionSound(old(net), src, dst, old(net)[src], old(net)[dst], net[src], net[dst], ok, rep)
      ensures cut.None? && NetInv(old(net)) ==> ok
    {
      hide NetInv, SessionSound, Static, Node.ThePeer, Node.Valid;
      StaticFacts(src, dst);
      ok, rep := RunSession(src, dst, cut);
      forall k | k in nodes
        ensures Owned(k) && Tracks(k)
      {
        StaticFacts(k, src);
        StaticFacts(k, dst);
      }
    }

    /** One client session. An unknown initiator is an error. */
    method SyncPair(src: NodeId, dst: NodeId, cut: Budget, ghost start: Net) returns (ok: bool)
      requires Valid() && dst in nodes && src != dst && Progress(start, net)
      modifies this`net, parts
      ensures Valid() && Progress(start, net) && (ok ==> src in nodes)
      ensures forall k :: k in nodes ==> Extends(old(net)[k].h.accepted, net[k].h.accepted)
      ensures ok ==> dst in start && Extends(start[dst].h.accepted, net[src].h.accepted)
      ensures cut.None? && src in nodes ==> ok
    {
      hide NetInv, Progress, SessionSound, Extends, Static, Tracks, Owned;
      Same(net);
      KeysOf(start, net);
      if src !in nodes {
        return false;
      }
      ghost var was := net;
      ghost var rep;
      ok, rep := Session(src, dst, cut);
      SessionProgress(start, was, src, dst, net[src], net[dst], ok, rep);
    }

    /** Which sessions of src with each of the ids succeeded: none of an unknown initiator or with
        itself, and all others that are not cut. */
    ghost predicate Tallied(src: NodeId, cuts: (NodeId, NodeId) -> Budget, oks: seq<bool>)
    {
      && |oks| == |ids|
      && forall b :: 0 <= b < |ids| ==>
           && (oks[b] ==> src in nodes && ids[b] != src)
           && (src in nodes && ids[b] != src && cuts(src, ids[b]).None? ==> oks[b])
    }

    /** All the sessions one node initiates in a round, and how many succeeded. One that did left src
        with all the other held at the start; uncut, they leave it holding everything. */
    method SyncFrom(src: NodeId, cuts: (NodeId, NodeId) -> Budget, ghost start: Net) returns (done: nat, ghost oks: seq<bool>)
      requires Valid() && Progress(start, net)
      modifies this`net, parts
      ensures Valid() && Progress(start, net)
      ensures forall k :: k in nodes ==> Extends(old(net)[k].h.accepted, net[k].h.accepted)
      ensures done == Trues(oks) && Tallied(src, cuts, oks)
      ensures src in net ==> Gained(start, net[src], ids, oks)
      ensures (forall x, y :: cuts(x, y).None?) && src in nodes ==> net[src].h.accepted == UnionOf(start)
    {
      hide NetInv, Progress, Extends, Tracks, UnionOf, Static, Owned, Trues, Gained;
      NothingGained(start, ids);
      KnownIds();
      done, oks := 0, [];
      TruesMore([], true, [], []);
      Same(net);
      KeysOf(start, net);
      for b := 0 to |ids|
        invariant Valid() && Progress(start, net)
        invariant forall k :: k in nodes ==> Extends(old(net)[k].h.accepted, net[k].h.accepted)
        invariant |oks| == b && done == Trues(oks)
        invariant src in nodes ==> Gained(start, net[src], ids, oks)
        invariant forall c :: 0 <= c < b ==>
                    && (oks[c] ==> src in nodes && ids[c] != src)
                    && (src in nodes && ids[c] != src && cuts(src, ids[c]).None? ==> oks[c])
      {
        var ok := false;
        if ids[b] != src {
          ghost var was := net;
          ok := SyncPair(src, ids[b], cuts(src, ids[b]), start);
          AllGrow(nodes.Keys, old(net), was, net);
          if src in nodes { GainedLater(start, was[src], net[src], ids, oks); }
          done := done + if ok then 1 else 0;
        }
        if src in nodes { GainedMore(start, net[src], ids, oks, ok); }
        TruesMore(oks, ok, [], []);
        oks := oks + [ok];
      }
      if (forall x, y :: cuts(x, y).None?) && src in nodes {
        HeldFromStart(start, net, src);
        KeysOf(start, net);
        GainedEach(start, net[src], ids, oks);
        HoldsAllIsUnion(start, net, src);
      }
    }

    lemma KnownIds()
      requires Static()
      ensures forall b :: 0 <= b < |ids| ==> ids[b] in nodes
      ensures forall i :: i in nodes ==> exists b :: 0 <= b < |ids| && ids[b] == i
    {
    }

    static lemma AllGrow(keys: set<NodeId>, a: Net, b: Net, c: Net)
      requires keys == a.Keys == b.Keys == c.Keys
      requires forall k :: k in keys ==> Extends(a[k].h.accepted, b[k].h.accepted) && Extends(b[k].h.accepted, c[k].h.accepted)
      ensures forall k :: k in keys ==> Extends(a[k].h.accepted, c[k].h.accepted)
    {
    }

    /** Whoever a session succeeded with, p holds all that one held at the start. */
    static ghost predicate Gained(start: Net, p: Peer, ids: seq<NodeId>, oks: seq<bool>)
    {
      |oks| <= |ids| && forall c :: 0 <= c < |oks| && oks[c] ==> ids[c] in start && Extends(start[ids[c]].h.accepted, p.h.accepted)
    }

    static lemma NothingGained(start: Net, ids: seq<NodeId>)
      ensures forall p :: Gained(start, p, ids, [])
    {
    }

    static lemma GainedLater(start: Net, p: Peer, q: Peer, ids: seq<NodeId>, oks: seq<bool>)
      requires Gained(start, p, ids, oks) && Extends(p.h.accepted, q.h.accepted)
      ensures Gained(start, q, ids, oks)
    {
    }

    static lemma GainedMore(start: Net, p: Peer, ids: seq<NodeId>, oks: seq<bool>, ok: bool)
      requires Gained(start, p, ids, oks) && |oks| < |ids|
      requires ok ==> ids[|oks|] in start && Extends(start[ids[|oks|]].h.accepted, p.h.accepted)
      ensures Gained(start, p, ids, oks + [ok])
    {
    }

    static lemma GainedEach(start: Net, p: Peer, ids: seq<NodeId>, oks: seq<bool>)
      requires Gained(start, p, ids, oks)
      ensures forall c :: 0 <= c < |oks| && oks[c] ==> ids[c] in start && Extends(start[ids[c]].h.accepted, p.h.accepted)
    {
    }

    static lemma HeldFromStart(start: Net, net: Net, i: NodeId)
      requires Progress(start, net) && i in net
      ensures i in start && Extends(start[i].h.accepted, net[i].h.accepted)
    {
    }

    /** A full mesh of sessions, the slow peer's last, and how many succeeded. Whatever sessions are
        cut, every node only gains; a round without faults leaves every node with the union of all. */
    method SyncRound(cuts: (NodeId, NodeId) -> Budget) returns (done: nat, ghost order: seq<NodeId>, ghost oks: seq<seq<bool>>)
      requires Valid() && NetInv(net)
      modifies this`net, parts
      ensures Valid() && Progress(old(net), net)
      ensures IsOrder(order) && |oks| == |order| && done == AllTrues(oks)
      ensures forall a :: 0 <= a < |order| ==> Tallied(order[a], cuts, oks[a])
      ensures (forall x, y :: cuts(x, y).None?) ==> forall k :: k in net ==> net[k].h.accepted == UnionOf(old(net))
    {
      hide NetInv, Progress, Extends, UnionOf, Tracks, Owned, Tallied, IsOrder, Trues, AllTrues, Static;
      ghost var start := net;
      NoProgressYet(start);
      done, oks := 0, [];
      TruesMore([], true, [], []);
      var peers := SyncOrder();
      OrderHasAll(peers);
      order := peers;
      for a := 0 to |peers|
        invariant Valid() && Progress(start, net)
        invariant |oks| == a && done == AllTrues(oks) && forall c :: 0 <= c < a ==> Tallied(peers[c], cuts, oks[c])
        invariant (forall x, y :: cuts(x, y).None?) ==>
                    forall c :: 0 <= c < a && peers[c] in nodes ==> net[peers[c]].h.accepted == UnionOf(start)
      {
        ghost var was := net;
        ghost var mine;
        var n;
        n, mine := SyncFrom(peers[a], cuts, start);
        done := done + n;
        TruesMore([], true, oks, mine);
        oks := oks + [mine];
        forall c | 0 <= c < a && peers[c] in nodes && was[peers[c]].h.accepted == UnionOf(start)
          ensures net[peers[c]].h.accepted == UnionOf(start)
        {
          GrownStaysUnion(start, was, net, peers[c]);
        }
      }
      if forall x, y :: cuts(x, y).None? {
        forall k | k in net
          ensures net[k].h.accepted == UnionOf(start)
        {
          assert k in peers;
        }
      }
    }

    method VectorOf(i: NodeId) returns (vv: VersionVector)
      requires Valid() && i in nodes
      ensures vv == QueryVector(net[i].h.log)
    {
      hide Static, QueryVector;
      vv := nodes[i].log.GetVersionVector();
    }

    /** Whether every node reports the same vector: mutual dominance with the first. */
    method VectorsAgree() returns (same: bool)
      requires Valid()
      ensures same <==> Cluster.VectorsAgree(net)
    {
      hide QueryVector, Tracks, Owned, Dominates;
      var lead: VersionVector := map[];
      for i := 0 to |ids|
        invariant i > 0 ==> lead == QueryVector(net[ids[0]].h.log)
        invariant forall k, n :: 0 <= k < i ==> At(QueryVector(net[ids[k]].h.log), n) == At(lead, n)
      {
        var vv := VectorOf(ids[i]);
        if i == 0 {
          lead := vv;
          continue;
        }
        MutualDominanceIsAgreement(vv, lead);
        if !Dominates(vv, lead) || !Dominates(lead, vv) {
          assert !Cluster.VectorsAgree(net) by {
            var n :| At(vv, n) != At(lead, n);
            assert ids[i] in net && ids[0] in net;
          }
          return false;
        }
      }
      same := true;
      forall i, j, n | i in net && j in net
        ensures At(QueryVector(net[i].h.log), n) == At(QueryVector(net[j].h.log), n)
      {
        assert i in ids && j in ids;
        var a :| 0 <= a < |ids| && ids[a] == i;
        var b :| 0 <= b < |ids| && ids[b] == j;
        assert At(QueryVector(net[ids[a]].h.log), n) == At(lead, n);
        assert At(QueryVector(net[ids[b]].h.log), n) == At(lead, n);
      }
    }

    /** Rounds of healed sessions until all vectors agree. One is enough. */
    method Quiesce(maxRounds: int) returns (rounds: int, ok: bool)
      requires Valid() && NetInv(net)
      modifies this`net, parts
      ensures Valid() && NetInv(net)
      ensures maxRounds > 0 ==>
                ok && rounds == 1 && Cluster.VectorsAgree(net) && forall k :: k in net ==> net[k].h.accepted == UnionOf(old(net))
      ensures maxRounds <= 0 ==> !ok && rounds == maxRounds && net == old(net)
    {
      hide NetInv, Progress, UnionOf, Static, Tracks, Owned, Cluster.VectorsAgree;
      var round := 0;
      while round < maxRounds
        invariant round >= 0 && Valid() && NetInv(net) && (round == 0 ==> net == old(net))
        invariant round > 0 ==> !Cluster.VectorsAgree(net) && forall i, j :: i in net && j in net ==> net[i].h.accepted == net[j].h.accepted
        decreases maxRounds - round
      {
        if round > 0 {
          AgreementIsConvergence(net);
          assert false;
        }
        ghost var order, oks;
        var n;
        n, order, oks := SyncRound((x, y) => None);
        KeysOf(old(net), net);
        var same := VectorsAgree();
        if same {
          return round + 1, true;
        }
        round := round + 1;
      }
      if round > 0 {
        AgreementIsConvergence(net);
        assert false;
      }
      return maxRounds, false;
    }

    /** Lowers floor to vv, entry by entry, and drops what vv does not list. */
    static method Narrow(floor: VersionVector, vv: VersionVector) returns (r: VersionVector)
      ensures Meets(floor, vv, r)
    {
      var low := floor;
      var left := floor.Keys;
      while left != {}
        invariant low.Keys == floor.Keys && left <= floor.Keys
        invariant forall n :: n in low ==> low[n] == if n !in left && At(vv, n) < floor[n] then At(vv, n) else floor[n]
        decreases |left|
      {
        var n :| n in left;
        if At(vv, n) < low[n] {
          low := low[n := At(vv, n)];
        }
        left := left - {n};
      }
      r := Keep(low, vv);
      forall n
        ensures At(r, n) == if At(floor, n) < At(vv, n) then At(floor, n) else At(vv, n)
      {
        assert n in low ==> low[n] == if At(vv, n) < floor[n] then At(vv, n) else floor[n];
      }
    }

    static method Keep(low: VersionVector, vv: VersionVector) returns (r: VersionVector)
      ensures r == map n | n in low && n in vv :: low[n]
    {
      r := low;
      var left := r.Keys;
      while left != {}
        invariant left <= r.Keys && forall n :: n in r ==> n in low && r[n] == low[n]
        invariant forall n :: n in low ==> (n in r <==> n in left || n in vv)
        decreases |left|
      {
        var n :| n in left;
        left := left - {n};
        if n !in vv {
          r := r - {n};
        }
      }
    }

    /** The greatest vector every peer of id reports holding: the bound up to which id may compact. */
    method AckedFloor(id: NodeId) returns (floor: VersionVector)
      requires Valid()
      ensures AckedByPeers(net, id, floor)
      ensures forall vv :: AckedByPeers(net, id, vv) && (exists j :: j in net && j != id) ==> Below(vv, floor)
    {
      hide QueryVector, Tracks, Static, Owned, Below, Meets, AckedByPeers;
      KnownIds();
      floor := map[];
      var none := true;
      for k := 0 to |ids|
        invariant none <==> forall c :: 0 <= c < k ==> ids[c] == id
        invariant none ==> floor == map[]
        invariant forall c :: 0 <= c < k && ids[c] != id ==> Below(floor, QueryVector(net[ids[c]].h.log))
        invariant !none ==> forall vv :: AckedByPeers(net, id, vv) ==> Below(vv, floor)
      {
        if ids[k] == id {
          continue;
        }
        var vv := VectorOf(ids[k]);
        AckedIsBelow(net, id, ids[k]);
        if none {
          floor, none := vv, false;
          BelowItself(vv);
          continue;
        }
        var was := floor;
        floor := Narrow(floor, vv);
        MeetIsGreatest(was, vv, floor);
      }
      forall j | j in net && j != id
        ensures Below(floor, QueryVector(net[j].h.log))
      {
        var c :| 0 <= c < |ids| && ids[c] == j;
      }
      BelowIsAcked(net, id, floor);
      if j :| j in net && j != id {
        var c :| 0 <= c < |ids| && ids[c] == j;
      }
    }

    method CompactLog(id: NodeId, floor: VersionVector)
      requires Valid() && id in nodes
      modifies this`net, nodes[id].log
      ensures Tracks(id) && net == old(net)[id := net[id]] && net[id].last == old(net)[id].last
      ensures Compact(old(net)[id].h, net[id].h, floor)
    {
      hide QueryVector, Compacted, Static, Inv;
      StaticFacts(id, id);
      var node := nodes[id];
      node.log.Compact(floor);
      net := net[id := node.ThePeer()];
    }

    /** Compacting a node up to its acked floor keeps the cluster sound: nothing becomes
        undeliverable and no read changes. */
    method CompactAcked(id: NodeId)
      requires Valid() && NetInv(net) && id in nodes
      modifies this`net, parts
      ensures Valid() && NetInv(net) && net == old(net)[id := net[id]] && net[id].h.accepted == old(net)[id].h.accepted
    {
      hide NetInv, QueryVector, Static, AckedByPeers, Node.ThePeer, Node.Valid, Compacted, Below;
      var floor := AckedFloor(id);
      StaticFacts(id, id);
      ghost var was := net;
      CompactLog(id, floor);
      CompactAtKeepsInv(was, net, id, floor, net[id].h);
      forall k | k in nodes
        ensures Owned(k) && Tracks(k)
      {
        StaticFacts(k, id);
      }
    }

    static lemma KeysOf(start: Net, net: Net)
      requires Progress(start, net)
      ensures NetInv(net) && start.Keys == net.Keys
    {
    }

    static lemma Same(net: Net)
      ensures forall k :: k in net ==> Extends(net[k].h.accepted, net[k].h.accepted)
    {
    }
  }
}
