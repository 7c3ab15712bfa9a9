/** How outstanding entries are read and cut into frames for warehouse-node's replication stream.
 */
module Frames {
  import opened Stamps
  import opened Events
  import opened Warehouse
  import opened Central

  const MAX_BATCH_EVENTS: nat := 200
  const MAX_BATCH_BYTES: nat := 0x10_0000

  function Joined(chunks: seq<seq<Envelope>>): seq<Envelope>
  {
    if chunks == [] then [] else Joined(chunks[..|chunks| - 1]) + chunks[|chunks| - 1]
  }

  function Bytes(envs: seq<Envelope>, size: Envelope -> nat): nat
  {
    if envs == [] then 0 else Bytes(envs[..|envs| - 1], size) + size(envs[|envs| - 1])
  }

  /** A chunk is never empty and keeps both caps, except that one envelope too large for any chunk
      travels alone. */
  ghost predicate Fits(c: seq<Envelope>, size: Envelope -> nat)
  {
    0 < |c| <= MAX_BATCH_EVENTS && (|c| == 1 || Bytes(c, size) <= MAX_BATCH_BYTES)
  }

  /** The next envelope could not have joined the chunk. */
  ghost predicate Closed(c: seq<Envelope>, next: Envelope, size: Envelope -> nat)
  {
    |c| == MAX_BATCH_EVENTS || Bytes(c, size) + size(next) > MAX_BATCH_BYTES
  }

  /** Every chunk fits, and is as long as the caps allow. */
  ghost predicate Chunked(chunks: seq<seq<Envelope>>, size: Envelope -> nat)
  {
    chunks == [] ||
    (var n := |chunks| - 1;
     && Chunked(chunks[..n], size) && Fits(chunks[n], size)
     && (n > 0 ==> ClosedBefore(chunks[n - 1], chunks[n], size)))
  }

  ghost predicate ClosedBefore(c: seq<Envelope>, d: seq<Envelope>, size: Envelope -> nat)
  {
    d != [] && Closed(c, d[0], size)
  }

  lemma ChunkedMore(chunks: seq<seq<Envelope>>, c: seq<Envelope>, size: Envelope -> nat)
    requires Chunked(chunks, size) && Fits(c, size)
    requires chunks != [] ==> ClosedBefore(chunks[|chunks| - 1], c, size)
    ensures Chunked(chunks + [c], size)
    ensures Joined(chunks + [c]) == Joined(chunks) + c
  {
    hide ClosedBefore, Fits;
    assert (chunks + [c])[..|chunks|] == chunks;
  }

  lemma FitsMore(c: seq<Envelope>, env: Envelope, size: Envelope -> nat)
    ensures Bytes(c + [env], size) == Bytes(c, size) + size(env)
    ensures c == [] || (Fits(c, size) && |c| < MAX_BATCH_EVENTS && Bytes(c, size) + size(env) <= MAX_BATCH_BYTES) ==> Fits(c + [env], size)
  {
  }

  lemma NoChunks(size: Envelope -> nat)
    ensures Chunked([], size) && Joined([]) == [] && Bytes([], size) == 0
  {
  }

  lemma FitsNonEmpty(c: seq<Envelope>, size: Envelope -> nat)
    requires Fits(c, size)
    ensures 0 < |c| <= MAX_BATCH_EVENTS
  {
  }

  /** Splits envelopes within both caps, in order, each chunk as long as the caps allow. */
  method Chunk(envs: seq<Envelope>, size: Envelope -> nat) returns (chunks: seq<seq<Envelope>>)
    ensures Joined(chunks) == envs && Chunked(chunks, size)
  {
    hide Joined, Bytes, Fits, Chunked;
    chunks := [];
    var current: seq<Envelope>, bytes := [], 0;
    NoChunks(size);
    for i := 0 to |envs|
      invariant Joined(chunks) + current == envs[..i] && bytes == Bytes(current, size) && Chunked(chunks, size)
      invariant i == 0 ==> chunks == []
      invariant if i == 0 then current == [] else current != [] && Fits(current, size)
      invariant chunks != [] && current != [] ==> Closed(chunks[|chunks| - 1], current[0], size)
    {
      var env := envs[i];
      assert envs[..i + 1] == envs[..i] + [env];
      if i > 0 { FitsNonEmpty(current, size); }
      if |current| > 0 && (|current| >= MAX_BATCH_EVENTS || bytes + size(env) > MAX_BATCH_BYTES) {
        ChunkedMore(chunks, current, size);
        chunks := chunks + [current];
        current, bytes := [], 0;
        NoChunks(size);
      }
      FitsMore(current, env, size);
      current := current + [env];
      bytes := bytes + size(env);
    }
    assert envs[..|envs|] == envs;
    if |current| > 0 {
      ChunkedMore(chunks, current, size);
      chunks := chunks + [current];
    }
  }

  datatype DownFrame = DownFrame(envs: seq<Envelope>, lastOrd: nat, more: bool)

  ghost predicate Rising(queue: seq<Outbound>)
  {
    forall i, j :: 0 <= i < j < |queue| ==> queue[i].ord < queue[j].ord
  }

  /** The entries above a position, in order. */
  function After(queue: seq<Outbound>, ord: nat): seq<Outbound>
  {
    if queue == [] then [] else After(queue[..|queue| - 1], ord) + if queue[|queue| - 1].ord > ord then [queue[|queue| - 1]] else []
  }

  function EnvsOf(rows: seq<Outbound>): seq<Envelope>
  {
    seq(|rows|, i requires 0 <= i < |rows| => rows[i].env)
  }

  function EnvsSent(frames: seq<DownFrame>): seq<Envelope>
  {
    if frames == [] then [] else EnvsSent(frames[..|frames| - 1]) + frames[|frames| - 1].envs
  }

  lemma {:induction false} AfterTwice(queue: seq<Outbound>, ord: nat, x: nat)
    requires ord <= x
    ensures After(After(queue, ord), x) == After(queue, x)
  {
    if queue != [] {
      var init, last := queue[..|queue| - 1], queue[|queue| - 1];
      AfterTwice(init, ord, x);
      var rest := After(init, ord);
      assert (rest + [last])[..|rest|] == rest && rest + [] == rest;
    }
  }

  lemma {:induction false} AfterHas(queue: seq<Outbound>, ord: nat)
    requires Rising(queue)
    ensures Rising(After(queue, ord)) && forall e :: e in After(queue, ord) ==> e in queue && e.ord > ord
  {
    if queue != [] {
      var init, last := queue[..|queue| - 1], queue[|queue| - 1];
      AfterHas(init, ord);
      var rest := After(init, ord);
      forall i | 0 <= i < |rest|
        ensures rest[i].ord < last.ord
      {
        assert rest[i] in init;
        var k :| 0 <= k < |init| && init[k] == rest[i];
        assert queue[k] == init[k];
      }
    }
  }

  lemma {:induction false} AfterAt(rest: seq<Outbound>, c: nat)
    requires Rising(rest) && 0 < c <= |rest|
    ensures After(rest, rest[c - 1].ord) == rest[c..]
  {
    var init, last, x := rest[..|rest| - 1], rest[|rest| - 1], rest[c - 1].ord;
    if c < |rest| {
      AfterAt(init, c);
      assert rest[c..] == init[c..] + [last];
    } else {
      assert forall i :: 0 <= i < |init| ==> init[i].ord <= x;
      AfterNone(init, x);
      assert rest[c..] == [];
    }
  }

  lemma {:induction false} AfterNone(rest: seq<Outbound>, x: nat)
    requires forall i :: 0 <= i < |rest| ==> rest[i].ord <= x
    ensures After(rest, x) == []
  {
    if rest != [] { AfterNone(rest[..|rest| - 1], x); }
  }

  /** Moving the cursor to an outstanding entry leaves the ones behind it. */
  lemma AfterDrop(queue: seq<Outbound>, ord: nat, c: nat)
    requires Rising(queue) && 0 < c <= |After(queue, ord)|
    ensures After(queue, After(queue, ord)[c - 1].ord) == After(queue, ord)[c..]
    ensures After(queue, ord)[c - 1].ord > ord
  {
    hide After;
    var rest := After(queue, ord);
    AfterHas(queue, ord);
    assert rest[c - 1] in rest;
    AfterTwice(queue, ord, rest[c - 1].ord);
    AfterAt(rest, c);
  }

  /** Up to limit queued entries above a position. */
  method Outbounds(queue: seq<Outbound>, after: nat, limit: nat) returns (out: seq<Outbound>)
    ensures out == After(queue, after)[..if limit < |After(queue, after)| then limit else |After(queue, after)|]
  {
    out := [];
    if limit == 0 {
      return;
    }
    for i := 0 to |queue|
      invariant out == After(queue[..i], after) && |out| < limit
    {
      assert queue[..i + 1][..i] == queue[..i];
      if queue[i].ord <= after {
        continue;
      }
      out := out + [queue[i]];
      if |out| >= limit {
        AfterPrefix(queue, i + 1, after);
        return;
      }
    }
    assert queue[..|queue|] == queue;
  }

  lemma {:induction false} AfterPrefix(queue: seq<Outbound>, i: nat, after: nat)
    requires i <= |queue|
    ensures After(queue[..i], after) <= After(queue, after)
  {
    if i < |queue| {
      AfterPrefix(queue[..|queue| - 1], i, after);
      assert queue[..|queue| - 1][..i] == queue[..i];
    } else {
      assert queue[..i] == queue;
    }
  }

  lemma JoinedSplit(chunks: seq<seq<Envelope>>, i: nat)
    requires i < |chunks|
    ensures Joined(chunks[..i + 1]) == Joined(chunks[..i]) + chunks[i]
    ensures |Joined(chunks[..i + 1])| <= |Joined(chunks)|
  {
    assert chunks[..i + 1][..i] == chunks[..i];
    JoinedGrows(chunks, i + 1);
  }

  lemma {:induction false} JoinedGrows(chunks: seq<seq<Envelope>>, i: nat)
    requires i <= |chunks|
    ensures Joined(chunks[..i]) <= Joined(chunks)
  {
    if i < |chunks| {
      JoinedGrows(chunks[..|chunks| - 1], i);
      assert chunks[..|chunks| - 1][..i] == chunks[..i];
    } else {
      assert chunks[..i] == chunks;
    }
  }

  lemma {:induction false} ChunkFits(chunks: seq<seq<Envelope>>, i: nat, size: Envelope -> nat)
    requires Chunked(chunks, size) && i < |chunks|
    ensures Fits(chunks[i], size) && chunks[i] != []
  {
    if i < |chunks| - 1 { ChunkFits(chunks[..|chunks| - 1], i, size); }
  }

  // ---------------------------------------------------------------- a node's own events

  /** The events numbered above from, in order. */
  function OwnAfter(own: seq<Envelope>, from: nat): seq<Envelope>
  {
    if own == [] then []
    else OwnAfter(own[..|own| - 1], from) + if own[|own| - 1].id.seqNo > from then [own[|own| - 1]] else []
  }

  /** A node numbers its own events from one, without a gap. */
  ghost predicate Numbered(own: seq<Envelope>, node: NodeId)
  {
    forall i :: 0 <= i < |own| ==> own[i].id == EventId(node, i + 1)
  }

  lemma {:induction false} OwnAfterIs(own: seq<Envelope>, node: NodeId, from: nat)
    requires Numbered(own, node)
    ensures OwnAfter(own, from) == if from <= |own| then own[from..] else []
  {
    if own != [] {
      var init, last := own[..|own| - 1], own[|own| - 1];
      OwnAfterIs(init, node, from);
      if from < |own| { assert own[from..] == init[from..] + [last]; }
    }
  }

  /** Up to limit of the node's own events above from, by number. */
  method ReadOwnAfter(own: seq<Envelope>, from: nat, limit: nat) returns (page: seq<Envelope>)
    ensures page == OwnAfter(own, from)[..if limit < |OwnAfter(own, from)| then limit else |OwnAfter(own, from)|]
  {
    page := [];
    if limit == 0 {
      return;
    }
    for i := 0 to |own|
      invariant page == OwnAfter(own[..i], from) && |page| < limit
    {
      assert own[..i + 1][..i] == own[..i];
      if own[i].id.seqNo <= from {
        continue;
      }
      page := page + [own[i]];
      if |page| >= limit {
        OwnAfterPrefix(own, i + 1, from);
        return;
      }
    }
    assert own[..|own|] == own;
  }

  lemma {:induction false} OwnAfterPrefix(own: seq<Envelope>, i: nat, from: nat)
    requires i <= |own|
    ensures OwnAfter(own[..i], from) <= OwnAfter(own, from)
  {
    if i < |own| {
      OwnAfterPrefix(own[..|own| - 1], i, from);
      assert own[..|own| - 1][..i] == own[..i];
    } else {
      assert own[..i] == own;
    }
  }

  // ---------------------------------------------------------------- what a frame carries

  /** The frame carries the first entries above from, and its position is the last one's. */
  ghost predicate Carried(queue: seq<Outbound>, from: nat, f: DownFrame)
  {
    var rest, n := After(queue, from), |f.envs|;
    && n <= |rest| && f.envs == EnvsOf(rest[..n])
    && f.lastOrd == if n == 0 then from else rest[n - 1].ord
  }

  lemma {:induction false} AfterFinds(queue: seq<Outbound>, from: nat, i: nat)
    requires i < |queue| && queue[i].ord > from
    ensures queue[i] in After(queue, from)
  {
    if i < |queue| - 1 { AfterFinds(queue[..|queue| - 1], from, i); }
  }

  /** So it carries exactly the entries between the position before it and its own. */
  lemma CarriedIsBetween(queue: seq<Outbound>, from: nat, f: DownFrame)
    requires Rising(queue) && Carried(queue, from, f)
    ensures from <= f.lastOrd
    ensures forall i :: 0 <= i < |queue| && from < queue[i].ord <= f.lastOrd ==> queue[i].env in f.envs
    ensures forall e :: e in f.envs ==> exists i :: 0 <= i < |queue| && from < queue[i].ord <= f.lastOrd && queue[i].env == e
    ensures f.envs != [] ==> exists i :: 0 <= i < |queue| && queue[i].ord == f.lastOrd
  {
    hide After;
    var rest, n := After(queue, from), |f.envs|;
    AfterHas(queue, from);
    forall i | 0 <= i < |queue| && from < queue[i].ord <= f.lastOrd
      ensures queue[i].env in f.envs
    {
      AfterFinds(queue, from, i);
      var j :| 0 <= j < |rest| && rest[j] == queue[i];
      assert n > 0 && j < n;
      assert f.envs[j] == queue[i].env;
    }
    forall e | e in f.envs
      ensures exists i :: 0 <= i < |queue| && from < queue[i].ord <= f.lastOrd && queue[i].env == e
    {
      var j :| 0 <= j < n && f.envs[j] == e;
      assert rest[j] in queue && rest[j].ord > from;
      var i :| 0 <= i < |queue| && queue[i] == rest[j];
      assert j < n - 1 ==> rest[j].ord < rest[n - 1].ord;
    }
    if n > 0 {
      assert rest[n - 1] in rest;
      assert rest[n - 1] in queue;
      var i :| 0 <= i < |queue| && queue[i] == rest[n - 1];
    }
  }

  /** A queue that only grew still has the frame where it was. */
  lemma CarriedStays(queue: seq<Outbound>, more: seq<Outbound>, from: nat, f: DownFrame)
    requires Carried(queue, from, f) && queue <= more
    ensures Carried(more, from, f)
  {
    hide After;
    AfterPrefix(more, |queue|, from);
    assert more[..|queue|] == queue;
    var n := |f.envs|;
    assert After(more, from)[..n] == After(queue, from)[..n];
  }
}
