/** localfirst-go as it runs: the record table and its counter updated per transaction, and the two
    halves of a session as loops over batches.
 */
module LocalStore {
  import opened Stamps
  import opened Events
  import opened LocalFirst

  function MergedAll(node: NodeId, l: Log, recs: seq<Record>): Log
  {
    if recs == [] then l else MergedOne(node, MergedAll(node, l, recs[..|recs| - 1]), recs[|recs| - 1])
  }

  /** What merging comes to: nothing held is replaced, and what is new is there. */
  ghost predicate RowsMerged(rows: Rows, rows': Rows, recs: seq<Record>)
  {
    && (forall id :: id in rows ==> id in rows' && rows'[id] == rows[id])
    && (forall id :: id in rows' ==> id in rows || rows'[id] in recs)
    && (forall i :: 0 <= i < |recs| ==> recs[i].id in rows')
  }

  lemma {:induction false} MergedMeans(node: NodeId, l: Log, recs: seq<Record>)
    ensures RowsMerged(l.rows, MergedAll(node, l, recs).rows, recs)
  {
    if recs != [] {
      var init, last := recs[..|recs| - 1], recs[|recs| - 1];
      MergedMeans(node, l, init);
      RowsMergedMore(l.rows, MergedAll(node, l, init).rows, init, last);
      assert recs == init + [last];
    }
  }

  lemma RowsMergedMore(rows: Rows, rows': Rows, recs: seq<Record>, r: Record)
    requires RowsMerged(rows, rows', recs)
    ensures RowsMerged(rows, if r.id in rows' then rows' else rows'[r.id := r], recs + [r])
  {
    assert forall x :: x in recs ==> x in recs + [r];
    assert r in recs + [r];
  }

  /** The counter is not below what it was, nor below an own number that is new. */
  lemma {:induction false} CounterCovers(node: NodeId, l: Log, recs: seq<Record>)
    ensures var m := MergedAll(node, l, recs);
            && m.nextSeq >= l.nextSeq
            && forall id :: id in m.rows && id !in l.rows && id.node == node ==> id.seqNo <= m.nextSeq
  {
    if recs != [] { CounterCovers(node, l, recs[..|recs| - 1]); }
  }

  /** And it is the least such number. */
  lemma {:induction false} CounterIsLeast(node: NodeId, l: Log, recs: seq<Record>, bound: nat)
    requires l.nextSeq <= bound
    requires forall j :: 0 <= j < |recs| && recs[j].id !in l.rows && recs[j].id.node == node ==> recs[j].id.seqNo <= bound
    ensures MergedAll(node, l, recs).nextSeq <= bound
  {
    if recs != [] {
      var n := |recs| - 1;
      var init, last := recs[..n], recs[n];
      assert forall j :: 0 <= j < n ==> init[j] == recs[j];
      CounterIsLeast(node, l, init, bound);
      MergedMeans(node, l, init);
    }
  }

  function Concat(batches: seq<seq<Record>>): seq<Record>
  {
    if batches == [] then [] else Concat(batches[..|batches| - 1]) + batches[|batches| - 1]
  }

  lemma LessTransitive(a: Record, b: Record, c: Record)
    requires Less(a, b) && Less(b, c)
    ensures Less(a, c)
  {
    NamesAntisymmetric(a.clock.node, b.clock.node);
    NamesAntisymmetric(b.clock.node, c.clock.node);
    NamesAntisymmetric(a.clock.node, c.clock.node);
    if Before(a.clock, b.clock) && Before(b.clock, c.clock) { BeforeTransitive(a.clock, b.clock, c.clock); }
  }

  predicate Least(r: Record, rs: set<Record>)
  {
    r in rs && forall x :: x in rs ==> !Less(x, r)
  }

  lemma {:induction false} LeastExists(rs: set<Record>)
    requires rs != {}
    ensures exists r :: Least(r, rs)
    decreases |rs|
  {
    hide Less;
    var a :| a in rs;
    var rest := rs - {a};
    assert rs == rest + {a};
    LessIrreflexive(a);
    if rest == {} {
      assert Least(a, rs);
    } else {
      LeastExists(rest);
      var b :| Least(b, rest);
      LeastOfTwo(rest, a, b);
      assert Least(a, rs) || Least(b, rs);
    }
  }

  lemma LeastOfTwo(rest: set<Record>, a: Record, b: Record)
    requires Least(b, rest)
    ensures Least(if Less(a, b) then a else b, rest + {a})
  {
    hide Less;
    LessIrreflexive(a);
    forall x | x in rest && Less(a, b)
      ensures !Less(x, a)
    {
      if Less(x, a) { LessTransitive(x, a, b); }
    }
  }

  class Store {
    const node: NodeId
    var rows: Rows
    var nextSeq: nat

    function Value(): Log
      reads this
    {
      Log(rows, nextSeq)
    }

    constructor (node: NodeId)
      ensures this.node == node && Value() == Log(map[], 0)
    {
      this.node := node;
      rows, nextSeq := map[], 0;
    }

    method Append(kind: string, payload: seq<char>, ts: Hlc) returns (r: Record)
      modifies this
      ensures r == Record(EventId(node, old(nextSeq) + 1), ts, kind, payload) && Value() == Appended(old(Value()), r)
      ensures nextSeq == old(nextSeq) + 1 && rows == if r.id in old(rows) then old(rows) else old(rows)[r.id := r]
    {
      r := Record(EventId(node, nextSeq + 1), ts, kind, payload);
      if r.id !in rows {
        rows := rows[r.id := r];
      }
      nextSeq := r.id.seqNo;
    }

    /** Each record commits on its own; only the first commits transactions get through. */
    method Merge(recs: seq<Record>, commits: nat) returns (inserted: nat)
      modifies this
      ensures Value() == MergedAll(node, old(Value()), recs[..if commits < |recs| then commits else |recs|])
      ensures |rows| == |old(rows)| + inserted
    {
      inserted := 0;
      var highestOwn := nextSeq;
      var n := if commits < |recs| then commits else |recs|;
      for i := 0 to n
        invariant Value() == MergedAll(node, old(Value()), recs[..i]) && highestOwn == nextSeq
        invariant |rows| == |old(rows)| + inserted
      {
        assert recs[..i + 1][..i] == recs[..i];
        var r := recs[i];
        if r.id in rows {
          continue;
        }
        assert rows[r.id := r].Keys == rows.Keys + {r.id};
        rows := rows[r.id := r];
        inserted := inserted + 1;
        if r.id.node == node && r.id.seqNo > highestOwn {
          highestOwn := r.id.seqNo;
        }
        nextSeq := highestOwn;
      }
    }

    /** Scans the table, keeps what vv lacks, and sorts it. */
    method Since(vv: VersionVector) returns (out: seq<Record>)
      requires forall id :: id in rows ==> rows[id].id == id
      ensures IsSince(rows, vv, out)
    {
      hide Less;
      var lacking := set id | id in rows && id.seqNo > At(vv, id.node) :: rows[id];
      out := [];
      var left := lacking;
      while left != {}
        invariant left <= lacking && InOrder(out)
        invariant forall r :: r in out <==> r in lacking - left
        invariant forall d, r :: d in out && r in left ==> !Less(r, d)
        decreases |left|
      {
        LeastExists(left);
        var r :| Least(r, left);
        assert r !in out;
        out := out + [r];
        left := left - {r};
      }
    }

    /** The largest number held per author. */
    method Version() returns (vv: VersionVector)
      ensures IsVersion(rows, vv)
    {
      vv := map[];
      var left := rows.Keys;
      while left != {}
        invariant left <= rows.Keys
        invariant forall id :: id in rows && id !in left ==> id.seqNo <= At(vv, id.node)
        invariant forall a :: At(vv, a) > 0 ==> EventId(a, At(vv, a)) in rows
        decreases |left|
      {
        var id :| id in left;
        left := left - {id};
        if id.seqNo > At(vv, id.node) {
          ghost var was := vv;
          vv := vv[id.node := id.seqNo];
          forall a | At(vv, a) > 0
            ensures EventId(a, At(vv, a)) in rows
          {
            if a == id.node { assert EventId(a, At(vv, a)) == id; } else { assert At(vv, a) == At(was, a); }
          }
        }
      }
    }

    /** Snapshots the version, then collects, drops what is above the snapshot, and cuts the rest
        into batches. */
    method PushAndAck(peerVV: VersionVector) returns (batches: seq<seq<Record>>, vv: VersionVector, ghost recs: seq<Record>)
      requires forall id :: id in rows ==> rows[id].id == id
      ensures IsVersion(rows, vv) && IsSince(rows, peerVV, recs)
      ensures Concat(batches) == Bounded(recs, vv) && Cut(batches)
    {
      hide IsVersion, IsSince, Bounded, Concat, Cut;
      vv := Version();
      var all := Since(peerVV);
      recs := all;
      var bounded := Bound(all, vv);
      batches := Split(bounded);
    }

    static method Bound(all: seq<Record>, vv: VersionVector) returns (bounded: seq<Record>)
      ensures bounded == Bounded(all, vv)
    {
      bounded := [];
      for i := 0 to |all|
        invariant bounded == Bounded(all[..i], vv)
      {
        assert all[..i + 1][..i] == all[..i];
        if all[i].id.seqNo <= At(vv, all[i].id.node) {
          bounded := bounded + [all[i]];
        }
      }
      assert all[..|all|] == all;
    }

    /** No batch is empty or too long, and all but the last are full. */
    static ghost predicate Cut(batches: seq<seq<Record>>)
    {
      forall b :: 0 <= b < |batches| ==> 0 < |batches[b]| <= BATCH_SIZE && (b < |batches| - 1 ==> |batches[b]| == BATCH_SIZE)
    }

    static lemma CutInit(batches: seq<seq<Record>>)
      requires Cut(batches) && batches != []
      ensures var init := batches[..|batches| - 1];
              Cut(init) && forall b :: 0 <= b < |init| ==> |init[b]| == BATCH_SIZE
    {
    }

    static lemma {:induction false} FullLength(batches: seq<seq<Record>>)
      requires forall b :: 0 <= b < |batches| ==> |batches[b]| == BATCH_SIZE
      ensures |Concat(batches)| == |batches| * BATCH_SIZE
    {
      if batches != [] { FullLength(batches[..|batches| - 1]); }
    }

    /** So batch b holds the records numbered b * BATCH_SIZE and up. */
    static lemma {:induction false} RecordAt(batches: seq<seq<Record>>, b: nat, j: nat)
      requires Cut(batches) && b < |batches| && j < |batches[b]|
      ensures b * BATCH_SIZE + j < |Concat(batches)| && Concat(batches)[b * BATCH_SIZE + j] == batches[b][j]
    {
      var init := batches[..|batches| - 1];
      CutInit(batches);
      FullLength(init);
      if b < |init| { RecordAt(init, b, j); }
    }

    static lemma BatchExists(batches: seq<seq<Record>>, i: nat)
      requires Cut(batches) && i < |Concat(batches)|
      ensures i / BATCH_SIZE < |batches| && i % BATCH_SIZE < |batches[i / BATCH_SIZE]|
    {
      CutInit(batches);
      FullLength(batches[..|batches| - 1]);
    }

    /** And a record's group is accepted exactly when its whole batch is honest. */
    static lemma BatchOfRecord(batches: seq<seq<Record>>, i: nat, local: NodeId)
      requires Cut(batches) && i < |Concat(batches)|
      ensures i / BATCH_SIZE < |batches|
      ensures BatchAccepted(Concat(batches), i, local) <==> forall j :: 0 <= j < |batches[i / BATCH_SIZE]| ==> HonestPeer(batches[i / BATCH_SIZE][j], local)
    {
      hide Concat, Cut, HonestPeer;
      var b, list := i / BATCH_SIZE, Concat(batches);
      BatchExists(batches, i);
      forall j | 0 <= j < |batches[b]|
        ensures b * BATCH_SIZE + j < |list| && list[b * BATCH_SIZE + j] == batches[b][j]
      {
        RecordAt(batches, b, j);
      }
      FitsOne(batches, b);
      forall m | 0 <= m < |list| && m / BATCH_SIZE == b
        ensures m % BATCH_SIZE < |batches[b]| && list[m] == batches[b][m % BATCH_SIZE]
      {
        BatchExists(batches, m);
        RecordAt(batches, b, m % BATCH_SIZE);
      }
      if BatchAccepted(list, i, local) {
        forall j | 0 <= j < |batches[b]|
          ensures HonestPeer(batches[b][j], local)
        {
          assert (b * BATCH_SIZE + j) / BATCH_SIZE == b;
        }
      }
    }

    static lemma FitsOne(batches: seq<seq<Record>>, b: nat)
      requires Cut(batches) && b < |batches|
      ensures |batches[b]| <= BATCH_SIZE
    {
    }

    static method Split(bounded: seq<Record>) returns (batches: seq<seq<Record>>)
      ensures Concat(batches) == bounded && Cut(batches)
    {
      batches := [];
      var start := 0;
      while start < |bounded|
        invariant 0 <= start <= |bounded| && Concat(batches) == bounded[..start] && Cut(batches)
        invariant start < |bounded| ==> forall b :: 0 <= b < |batches| ==> |batches[b]| == BATCH_SIZE
      {
        var end := if start + BATCH_SIZE < |bounded| then start + BATCH_SIZE else |bounded|;
        assert (batches + [bounded[start..end]])[..|batches|] == batches;
        assert bounded[..end] == bounded[..start] + bounded[start..end];
        batches := batches + [bounded[start..end]];
        start := end;
      }
      assert bounded[..|bounded|] == bounded;
    }

    /** Applies a peer's batches in order. A batch with a record the peer could not have authored is
        refused whole, and the session with it. */
    method Drain(batches: seq<seq<Record>>) returns (ok: bool, ghost m: nat)
      modifies this
      ensures m <= |batches| && (ok ==> m == |batches|)
      ensures ok <==> forall i :: 0 <= i < |batches| ==> HonestBatch(batches[i], node)
      ensures Value() == MergedAll(node, old(Value()), Concat(batches[..m]))
      ensures forall i :: 0 <= i < m ==> HonestBatch(batches[i], node)
    {
      hide MergedAll, Concat, HonestBatch;
      ok, m := true, 0;
      NothingMerged(node, Value(), batches);
      for b := 0 to |batches|
        invariant m == b && Value() == MergedAll(node, old(Value()), Concat(batches[..b]))
        invariant forall i :: 0 <= i < b ==> HonestBatch(batches[i], node)
      {
        var recs := batches[b];
        var honest := AllHonest(recs);
        if !honest {
          ok := false;
          return;
        }
        var n := Merge(recs, |recs|);
        assert recs[..|recs|] == recs;
        ConcatMore(batches, b);
        MergedConcat(node, old(Value()), Concat(batches[..b]), recs);
        m := b + 1;
      }
      assert batches[..|batches|] == batches;
    }

    /** Every record of the batch names an author other than this node and a number. */
    static ghost predicate HonestBatch(recs: seq<Record>, local: NodeId)
    {
      forall j :: 0 <= j < |recs| ==> recs[j].id.node != "" && recs[j].id.node != local && recs[j].id.seqNo != 0
    }

    method AllHonest(recs: seq<Record>) returns (honest: bool)
      ensures honest <==> HonestBatch(recs, node)
    {
      for j := 0 to |recs|
        invariant HonestBatch(recs[..j], node)
      {
        assert recs[..j + 1][..j] == recs[..j] && recs[..j + 1][j] == recs[j];
        if !HonestPeer(recs[j], node) {
          return false;
        }
      }
      assert recs[..|recs|] == recs;
      return true;
    }

    static lemma NothingMerged(node: NodeId, l: Log, batches: seq<seq<Record>>)
      ensures MergedAll(node, l, Concat(batches[..0])) == l
    {
    }

    static lemma ConcatMore(batches: seq<seq<Record>>, b: nat)
      requires b < |batches|
      ensures Concat(batches[..b + 1]) == Concat(batches[..b]) + batches[b]
    {
      assert batches[..b + 1][..b] == batches[..b];
    }

    static lemma {:induction false} MergedConcat(node: NodeId, l: Log, a: seq<Record>, b: seq<Record>)
      ensures MergedAll(node, l, a + b) == MergedAll(node, MergedAll(node, l, a), b)
      decreases |b|
    {
      if b == [] {
        assert a + b == a;
      } else {
        assert (a + b)[..|a + b| - 1] == a + b[..|b| - 1];
        MergedConcat(node, l, a, b[..|b| - 1]);
      }
    }
  }
}
