/** The two ends of the replication stream as code. Between any two calls of one end everybody else
    may act: the other end, other sessions, the node's operators, central's other nodes. What they do
    is a parameter, any path of the state machine that leaves this end alone; and the session is
    cut after any number of calls. Whatever they do, the code's own calls are steps of the machine.
 */
module ReplicationCode {
  import opened Stamps
  import opened Events
  import opened Warehouse
  import opened Central
  import opened Frames
  import opened Replication

  ghost predicate Path(tr: seq<World>, w: World, w': World)
  {
    && tr != [] && tr[0] == w && tr[|tr| - 1] == w'
    && forall i, j :: 0 <= i < j < |tr| && j == i + 1 ==> Step(tr[i], tr[j])
  }

  /** Some path of the state machine leads from w to w'. */
  ghost predicate Leads(w: World, w': World)
  {
    exists tr :: Path(tr, w, w')
  }

  lemma LeadsNowhere(w: World)
    ensures Leads(w, w)
  {
    assert Path([w], w, w);
  }

  lemma LeadsOn(w: World, w': World, w'': World)
    requires Leads(w, w') && Leads(w', w'')
    ensures Leads(w, w'')
  {
    hide Step;
    var a :| Path(a, w, w');
    var b :| Path(b, w', w'');
    var all := a + b[1..];
    forall i, j | 0 <= i < j < |all| && j == i + 1
      ensures Step(all[i], all[j])
    {
      if j < |a| {
        assert all[i] == a[i] && all[j] == a[j];
      } else {
        assert all[i] == b[i - |a| + 1] && all[j] == b[j - |a| + 1];
      }
    }
    assert Path(all, w, w'');
  }

  lemma LeadsByStep(w: World, w': World)
    requires Step(w, w')
    ensures Leads(w, w')
  {
    hide Step;
    assert Path([w, w'], w, w');
  }

  lemma {:induction false} PathKeepsInv(tr: seq<World>, w: World, w': World)
    requires Path(tr, w, w') && Inv(w)
    ensures Inv(w') && Later(w, w')
    decreases |tr|
  {
    hide Step, Inv;
    if |tr| > 1 {
      var n := |tr| - 1;
      assert Path(tr[..n], w, tr[n - 1]);
      PathKeepsInv(tr[..n], w, tr[n - 1]);
      StepKeepsInv(tr[n - 1], w');
      LaterOn(w, tr[n - 1], w');
    }
  }

  lemma LaterOn(w: World, w': World, w'': World)
    requires Later(w, w') && Later(w', w'')
    ensures Later(w, w'')
  {
  }

  lemma LeadsKeepsInv(w: World, w': World)
    requires Leads(w, w') && Inv(w)
    ensures Inv(w') && Later(w, w')
  {
    hide Inv, Path, Later;
    var tr :| Path(tr, w, w');
    PathKeepsInv(tr, w, w');
  }

  /** A step of one end leaves the other end where it is, in every session. */
  lemma EndsAreSeparate(w: World, w': World, k: nat, j: nat)
    requires j in w.sessions && j in w'.sessions
    ensures NodeStep(w, w', k) ==> w'.sessions[j].central == w.sessions[j].central
    ensures CentralStep(w, w', k) ==> w'.sessions[j].node == w.sessions[j].node
  {
  }

  // ---------------------------------------------------------------- pages

  lemma PageStays(queue: seq<Outbound>, more: seq<Outbound>, cursor: nat, rows: seq<Outbound>)
    requires queue <= more && rows <= After(queue, cursor)
    ensures rows <= After(more, cursor)
  {
    hide After;
    AfterPrefix(more, |queue|, cursor);
    assert more[..|queue|] == queue;
  }

  /** The next chunk of a page is what comes next after the cursor, and the rest of the page what
      comes next after that. */
  lemma ChunkIsNext(queue: seq<Outbound>, cursor: nat, rows: seq<Outbound>, f: DownFrame)
    requires Rising(queue) && rows <= After(queue, cursor) && 0 < |f.envs| <= |rows|
    requires f.envs == EnvsOf(rows[..|f.envs|]) && f.lastOrd == rows[|f.envs| - 1].ord
    ensures Carried(queue, cursor, f) && rows[|f.envs|..] <= After(queue, f.lastOrd)
  {
    hide After;
    var n, rest := |f.envs|, After(queue, cursor);
    assert rest[..n] == rows[..n];
    AfterDrop(queue, cursor, n);
  }

  lemma NothingBefore(queue: seq<Outbound>, more: seq<Outbound>, cursor: nat)
    requires queue <= more && After(more, cursor) == []
    ensures After(queue, cursor) == []
  {
    hide After;
    AfterPrefix(more, |queue|, cursor);
    assert more[..|queue|] == queue;
  }

  lemma OwnPageStays(own: seq<Envelope>, more: seq<Envelope>, from: nat, page: seq<Envelope>)
    requires own <= more && page <= OwnAfter(own, from)
    ensures page <= OwnAfter(more, from)
  {
    hide OwnAfter;
    OwnAfterPrefix(more, |own|, from);
    assert more[..|own|] == own;
  }

  lemma OwnChunkIsNext(own: seq<Envelope>, node: NodeId, from: nat, page: seq<Envelope>, n: nat)
    requires Numbered(own, node) && page <= OwnAfter(own, from) && n <= |page|
    ensures page[..n] <= OwnAfter(own, from) && page[n..] <= OwnAfter(own, LastSeq(page[..n], from))
  {
    hide OwnAfter;
    OwnAfterIs(own, node, from);
    if n > 0 {
      assert page[n - 1] == own[from + n - 1];
      OwnAfterIs(own, node, from + n);
      assert own[from..][n..] == own[from + n..];
    } else {
      assert page[n..] == page;
    }
  }

  /** Every frame within the caps. */
  ghost predicate AllFit(frames: seq<DownFrame>, size: Envelope -> nat)
  {
    forall i :: 0 <= i < |frames| ==> Fits(frames[i].envs, size)
  }

  lemma ChainJoin(queue: seq<Outbound>, a: seq<DownFrame>, b: seq<DownFrame>, base: nat, mid: nat, end: nat)
    requires Chain(queue, a, base, mid) && Chain(queue, b, mid, end)
    ensures Chain(queue, a + b, base, end)
  {
    hide Carried;
    var all := a + b;
    forall i | 0 <= i < |all|
      ensures Carried(queue, Replication.Before(all, base, i), all[i])
    {
      if i < |a| {
        assert Carried(queue, Replication.Before(a, base, i), a[i]);
      } else {
        assert Carried(queue, Replication.Before(b, mid, i - |a|), b[i - |a|]);
      }
    }
  }

  // ---------------------------------------------------------------- central

  class CentralSide {
    var w: World
    var calls: nat
    var tick: nat
    const k: nat
    const others: (nat, World) -> World
    const size: Envelope -> nat

    /** The others follow the protocol and leave central's end of this session alone. */
    static ghost predicate Rely(others: (nat, World) -> World, k: nat)
    {
      forall i, v :: Inv(v) && k in v.sessions ==>
        && Leads(v, others(i, v)) && k in others(i, v).sessions
        && others(i, v).sessions[k].central == v.sessions[k].central
    }

    ghost predicate Valid()
      reads this
    {
      Inv(w) && Rely(others, k)
    }

    ghost predicate At(c: CentralEnd)
      reads this
    {
      k in w.sessions && w.sessions[k].central == c
    }

    /** A session begins: central says how far it knows the node to be. */
    constructor (w: World, k: nat, others: (nat, World) -> World, size: Envelope -> nat, calls: nat)
      requires Inv(w) && Rely(others, k) && k !in w.sessions
      ensures Valid() && At(Receiving) && Leads(w, this.w) && this.k == k && this.w.sessions[k].reply == Some(w.server.pushed)
    {
      this.w, this.k, this.others, this.size, this.calls, this.tick := Greeted(w, k), k, others, size, calls, 0;
      new;
      hide Inv;
      LeadsByStep(w, Greeted(w, k));
      LeadsKeepsInv(w, Greeted(w, k));
    }

    /** The others act; the session may be cut. */
    method Pause() returns (alive: bool)
      requires Valid() && k in w.sessions
      modifies this`w, this`tick, this`calls
      ensures Valid() && Leads(old(w), w) && Later(old(w), w) && At(old(w.sessions[k].central))
      ensures calls <= old(calls) && (alive ==> calls < old(calls))
    {
      hide Inv, Later, Leads;
      ghost var was := w;
      w := others(tick, w);
      LeadsKeepsInv(was, w);
      tick := tick + 1;
      alive := calls > 0;
      if alive {
        calls := calls - 1;
      }
    }

    /** One call to the store or the wire. */
    method Become(next: World)
      requires Valid() && Step(w, next)
      modifies this`w
      ensures w == next && Valid() && Leads(old(w), w) && Later(old(w), w)
    {
      hide Inv, Step, Later, Leads;
      LeadsByStep(w, next);
      LeadsKeepsInv(w, next);
      w := next;
    }

    /** Arbitrates every event of a batch, then moves the pushed cursor and acknowledges. */
    method ArbitrateBatch(batch: Batch) returns (ok: bool)
      requires Valid() && At(Receiving) && w.sessions[k].up == Some(batch)
      modifies this`w, this`tick, this`calls
      ensures Valid() && Leads(old(w), w) && calls <= old(calls)
      ensures ok ==> At(if batch.more then Receiving else Turning)
      ensures ok ==> forall e :: e in batch.envs ==> e.id in w.server.decided && (e.id.node == w.name ==> e.id.seqNo <= w.server.pushed)
      ensures ok ==> w.server.pushed >= old(w.server.pushed)
    {
      hide Inv, Leads, Later, Step, Rely;
      ghost var first := w;
      assert Step(w, BatchTaken(w, k)) by { CentralMoves(w, BatchTaken(w, k), k); }
      var highest: nat := w.server.pushed;
      Become(BatchTaken(w, k));
      for i := 0 to |batch.envs|
        invariant Valid() && Leads(first, w) && At(Arbitrating(batch, i, highest)) && calls <= old(calls)
        invariant forall e :: e in batch.envs[..i] ==> e.id in w.server.decided && (e.id.node == w.name ==> e.id.seqNo <= highest)
        invariant highest >= first.server.pushed
      {
        assert batch.envs[..i + 1] == batch.envs[..i] + [batch.envs[i]];
        ghost var was := w;
        var alive := Pause();
        LeadsOn(first, was, w);
        LaterDecided(was, w);
        if !alive {
          return false;
        }
        was := w;
        highest := Higher(highest, batch.envs[i].id, w.name);
        assert Step(w, OneArbitrated(w, k)) by { CentralMoves(w, OneArbitrated(w, k), k); }
        Become(OneArbitrated(w, k));
        LeadsOn(first, was, w);
      }
      assert batch.envs[..|batch.envs|] == batch.envs;
      ghost var was := w;
      var alive := Pause();
      LeadsOn(first, was, w);
      LaterDecided(was, w);
      if !alive {
        return false;
      }
      was := w;
      assert Step(w, BatchFinished(w, k)) by { CentralMoves(w, BatchFinished(w, k), k); }
      Become(BatchFinished(w, k));
      LeadsOn(first, was, w);
      ok := true;
    }

    /** Takes batches until one says there is no more. */
    method Receive() returns (ok: bool)
      requires Valid() && At(Receiving)
      modifies this`w, this`tick, this`calls
      ensures Valid() && Leads(old(w), w) && (ok ==> At(Turning))
    {
      hide Inv, Leads, Later, Step, Rely;
      ghost var first := w;
      LeadsNowhere(w);
      while true
        invariant Valid() && Leads(first, w) && At(Receiving)
        decreases calls
      {
        ghost var was := w;
        var alive := Pause();
        LeadsOn(first, was, w);
        if !alive || w.sessions[k].up.None? {
          return false;
        }
        var batch := w.sessions[k].up.value;
        was := w;
        var taken := ArbitrateBatch(batch);
        LeadsOn(first, was, w);
        if !taken {
          return false;
        }
        if !batch.more {
          return true;
        }
      }
    }

    /** One page of rows: its chunks sent one by one, the cursor moving to the last entry of each. */
    method PushPage(start: nat, rows: seq<Outbound>) returns (ok: bool, frames: seq<DownFrame>, cursor: nat, more: bool)
      requires Valid() && At(Pushing(start)) && rows != [] && rows <= After(w.server.queue, start)
      modifies this`w, this`tick, this`calls
      ensures Valid() && Leads(old(w), w) && Later(old(w), w) && calls <= old(calls)
      ensures Chain(w.server.queue, frames, start, cursor) && AllFit(frames, size)
      ensures ok ==> frames != [] && At(if more then Pushing(cursor) else Pushed(cursor)) && calls < old(calls)
      ensures ok && !more ==> After(old(w).server.queue, cursor) == []
      ensures ok && more ==> After(w.server.queue, cursor) != []
    {
      hide Inv, Leads, Later, Step, Rely, After, Joined, Chain, Carried, Fits, Chunked;
      ghost var first := w;
      LeadsNowhere(w);
      LeadsKeepsInv(w, w);
      var envs := seq(|rows|, i requires 0 <= i < |rows| => rows[i].env);
      assert envs == EnvsOf(rows);
      var chunks := Chunk(envs, size);
      frames, cursor, more := [], start, true;
      var consumed: nat := 0;
      NoFrames(w.server.queue, start);
      assert chunks[..0] == [];
      NothingJoined();
      for i := 0 to |chunks|
        invariant Valid() && Leads(first, w) && Later(first, w) && calls <= old(calls)
        invariant consumed <= |rows| && Joined(chunks[..i]) == EnvsOf(rows)[..consumed]
        invariant rows[consumed..] <= After(w.server.queue, cursor) && At(Pushing(cursor))
        invariant Chain(w.server.queue, frames, start, cursor) && AllFit(frames, size)
        invariant i > 0 ==> frames != [] && calls < old(calls)
        invariant more && (i > 0 && i == |chunks| ==> After(w.server.queue, cursor) != [])
      {
        ChunkOfPage(rows, chunks, i, consumed, size);
        ghost var rest := rows[consumed..];
        consumed := consumed + |chunks[i]|;
        var next := rows[consumed - 1].ord;
        more := i < |chunks| - 1;
        var alive := Continue(first, rest, cursor, frames, start);
        if !alive {
          return false, frames, cursor, more;
        }
        if !more {
          var remaining := Outbounds(w.server.queue, next, 1);
          more := |remaining| > 0;
          if !more {
            LaterQueue(first, w);
            NothingBefore(first.server.queue, w.server.queue, next);
          }
          alive := Continue(first, rest, cursor, frames, start);
          if !alive {
            return false, frames, cursor, more;
          }
        }
        var f := DownFrame(chunks[i], next, more);
        QueueRises(w);
        ChunkIsNext(w.server.queue, cursor, rest, f);
        ChainMore(w.server.queue, frames, start, cursor, f);
        Send(first, cursor, f);
        cursor := next;
        frames := frames + [f];
        assert rest[|f.envs|..] == rows[consumed..];
        if !more {
          return true, frames, cursor, more;
        }
      }
      assert chunks[..|chunks|] == chunks;
      SomeChunks(chunks, envs);
      ok := true;
    }

    /** The others act between two calls of a page: what the page still holds comes next as before. */
    method Continue(ghost first: World, ghost rest: seq<Outbound>, ghost cursor: nat, ghost frames: seq<DownFrame>, ghost start: nat)
      returns (alive: bool)
      requires Valid() && At(Pushing(cursor)) && Leads(first, w) && Later(first, w)
      requires rest <= After(w.server.queue, cursor) && Chain(w.server.queue, frames, start, cursor)
      modifies this`w, this`tick, this`calls
      ensures Valid() && At(Pushing(cursor)) && Leads(first, w) && Later(first, w)
      ensures rest <= After(w.server.queue, cursor) && Chain(w.server.queue, frames, start, cursor)
      ensures forall c :: After(old(w).server.queue, c) != [] ==> After(w.server.queue, c) != []
      ensures calls <= old(calls) && (alive ==> calls < old(calls))
    {
      hide Inv, Leads, Later, Rely, After, Chain;
      ghost var was := w;
      alive := Pause();
      LeadsOn(first, was, w);
      LaterOn(first, was, w);
      LaterQueue(was, w);
      PageStays(was.server.queue, w.server.queue, cursor, rest);
      forall c | After(was.server.queue, c) != []
        ensures After(w.server.queue, c) != []
      {
        PageStays(was.server.queue, w.server.queue, c, After(was.server.queue, c));
      }
      ChainLater(was.server.queue, w.server.queue, frames, start, cursor);
    }

    method Send(ghost first: World, ghost cursor: nat, f: DownFrame)
      requires Valid() && At(Pushing(cursor)) && Leads(first, w) && Later(first, w) && Carried(w.server.queue, cursor, f)
      modifies this`w
      ensures Valid() && At(if f.more then Pushing(f.lastOrd) else Pushed(f.lastOrd)) && Leads(first, w) && Later(first, w)
      ensures w.server == old(w.server)
    {
      hide Inv, Leads, Later, Step, Rely, Carried;
      ghost var was := w;
      assert SendFrame(w, FrameSent(w, k, f), k, f);
      assert Step(w, FrameSent(w, k, f)) by { CentralMoves(w, FrameSent(w, k, f), k); }
      Become(FrameSent(w, k, f));
      LeadsOn(first, was, w);
      LaterOn(first, was, w);
    }

    /** Sends everything queued above the delivered cursor, page by page, each page read anew. The
        frames carry one after the other exactly what is queued between their positions, within both
        caps; when the push is not cut, all that was queued when it began has been sent. With
        nothing queued there is one empty frame. */
    method Push() returns (ok: bool, sent: seq<DownFrame>, start: nat, cursor: nat)
      requires Valid() && At(Turning)
      modifies this`w, this`tick, this`calls
      ensures Valid() && Leads(old(w), w)
      ensures Chain(w.server.queue, sent, start, cursor) && start == old(w).server.delivered
      ensures EnvsSent(sent) + EnvsOf(After(w.server.queue, cursor)) == EnvsOf(After(w.server.queue, start))
      ensures AllFit(sent, size) || (sent == [DownFrame([], start, false)] && cursor == start)
      ensures ok ==> At(Pushed(cursor)) && After(old(w).server.queue, cursor) == []
    {
      hide Inv, Leads, Later, Step, Rely, After, Chain, Carried, Fits, EnvsSent, EnvsOf;
      ghost var first := w;
      start := w.server.delivered;
      assert Step(w, PushBegun(w, k)) by { CentralMoves(w, PushBegun(w, k), k); }
      Become(PushBegun(w, k));
      sent, cursor := [], start;
      NoFrames(w.server.queue, start);
      while true
        invariant Valid() && Leads(first, w) && Later(first, w) && At(Pushing(cursor))
        invariant Chain(w.server.queue, sent, start, cursor) && AllFit(sent, size)
        invariant if sent == [] then cursor == start else After(w.server.queue, cursor) != []
        decreases calls
      {
        NoneIsPrefix(w.server.queue, cursor);
        var alive := Continue(first, [], cursor, sent, start);
        if !alive {
          QueueRises(w);
          ChainCarriesAll(w.server.queue, sent, start, cursor);
          return false, sent, start, cursor;
        }
        var rows := Outbounds(w.server.queue, cursor, MAX_BATCH_EVENTS);
        if |rows| == 0 {
          var f := DownFrame([], cursor, false);
          EmptyIsCarried(w.server.queue, cursor);
          LaterQueue(first, w);
          NothingBefore(first.server.queue, w.server.queue, cursor);
          ChainMore(w.server.queue, sent, start, cursor, f);
          Send(first, cursor, f);
          sent := sent + [f];
          QueueRises(w);
          ChainCarriesAll(w.server.queue, sent, start, cursor);
          return true, sent, start, cursor;
        }
        ghost var was := w;
        var done, page, at, more := PushPage(cursor, rows);
        LeadsOn(first, was, w);
        LaterOn(first, was, w);
        LaterQueue(was, w);
        ChainLater(was.server.queue, w.server.queue, sent, start, cursor);
        ChainJoin(w.server.queue, sent, page, start, cursor, at);
        sent, cursor := sent + page, at;
        if !done {
          QueueRises(w);
          ChainCarriesAll(w.server.queue, sent, start, cursor);
          return false, sent, start, cursor;
        }
        if !more {
          LaterQueue(first, was);
          NothingBefore(first.server.queue, was.server.queue, cursor);
          QueueRises(w);
          ChainCarriesAll(w.server.queue, sent, start, cursor);
          return true, sent, start, cursor;
        }
      }
    }

    /** The final acknowledgement, if the node sends one, moves the delivered cursor to the position of
        the last frame. */
    method Finish(ghost cursor: nat) returns (ok: bool)
      requires Valid() && At(Pushed(cursor))
      modifies this`w, this`tick, this`calls
      ensures Valid() && Leads(old(w), w) && (ok ==> k !in w.sessions && (cursor > 0 ==> w.server.delivered == cursor))
    {
      hide Inv, Leads, Later, Step, Rely;
      ghost var first := w;
      var alive := Pause();
      if !alive || w.sessions[k].last.None? {
        return false;
      }
      FinalIsCursor(w, k);
      ghost var was := w;
      assert Step(w, Concluded(w, k)) by { CentralMoves(w, Concluded(w, k), k); }
      Become(Concluded(w, k));
      LeadsOn(first, was, w);
      ok := true;
    }

    /** A whole session, cut anywhere, is a path of the state machine. One that is not cut leaves
        nothing undelivered of what was queued when it began. */
    method Replicate() returns (ok: bool)
      requires Valid() && At(Receiving)
      modifies this`w, this`tick, this`calls
      ensures Valid() && Leads(old(w), w) && (ok ==> k !in w.sessions && After(old(w).server.queue, w.server.delivered) == [])
    {
      hide Inv, Leads, Later, Step, Rely, Chain, AllFit, After, EnvsSent, EnvsOf;
      ghost var first := w;
      ok := Receive();
      if !ok {
        return;
      }
      ghost var was := w;
      LeadsKeepsInv(first, was);
      LaterQueue(first, was);
      var sent, start, cursor;
      ok, sent, start, cursor := Push();
      LeadsOn(first, was, w);
      if !ok {
        return;
      }
      NothingBefore(first.server.queue, was.server.queue, cursor);
      was := w;
      ok := Finish(cursor);
      LeadsOn(first, was, w);
      if ok && cursor == 0 {
        NothingFurther(first.server.queue, cursor, w.server.delivered);
      }
    }
  }

  lemma ChunkOfPage(rows: seq<Outbound>, chunks: seq<seq<Envelope>>, i: nat, consumed: nat, size: Envelope -> nat)
    requires Joined(chunks) == EnvsOf(rows) && Chunked(chunks, size) && i < |chunks|
    requires consumed <= |rows| && Joined(chunks[..i]) == EnvsOf(rows)[..consumed]
    ensures Fits(chunks[i], size) && 0 < |chunks[i]| <= |rows| - consumed
    ensures Joined(chunks[..i + 1]) == EnvsOf(rows)[..consumed + |chunks[i]|]
    ensures chunks[i] == EnvsOf(rows[consumed..][..|chunks[i]|])
  {
    hide Joined, Chunked, Fits;
    JoinedSplit(chunks, i);
    JoinedGrows(chunks, i + 1);
    ChunkFits(chunks, i, size);
    assert chunks[i] == EnvsOf(rows)[consumed..consumed + |chunks[i]|];
  }

  lemma NoneIsPrefix(queue: seq<Outbound>, cursor: nat)
    ensures [] <= After(queue, cursor)
  {
  }

  lemma EmptyIsCarried(queue: seq<Outbound>, cursor: nat)
    ensures Carried(queue, cursor, DownFrame([], cursor, false))
  {
  }

  lemma NoFrames(queue: seq<Outbound>, start: nat)
    ensures Chain(queue, [], start, start)
  {
  }

  lemma NothingJoined()
    ensures Joined([]) == []
  {
  }

  lemma SomeChunks(chunks: seq<seq<Envelope>>, envs: seq<Envelope>)
    requires Joined(chunks) == envs && envs != []
    ensures chunks != []
  {
  }

  lemma LaterQueue(w: World, w': World)
    requires Later(w, w')
    ensures w.server.queue <= w'.server.queue && w.client.own <= w'.client.own
  {
  }

  lemma LaterDecided(w: World, w': World)
    requires Later(w, w')
    ensures w.server.decided <= w'.server.decided && w'.name == w.name
  {
  }

  /** The final acknowledgement names the position of the last frame. */
  lemma FinalIsCursor(w: World, k: nat)
    requires Inv(w) && k in w.sessions && w.sessions[k].central.Pushed? && w.sessions[k].last.Some?
    ensures w.sessions[k].last.value == w.sessions[k].central.cursor
  {
    assert SessionOk(w, w.sessions[k]);
  }

  lemma NothingFurther(queue: seq<Outbound>, cursor: nat, further: nat)
    requires After(queue, cursor) == [] && cursor <= further
    ensures After(queue, further) == []
  {
    AfterTwice(queue, cursor, further);
  }

  lemma QueueRises(w: World)
    requires Inv(w)
    ensures Rising(w.server.queue) && Numbered(w.client.own, w.name)
  {
  }

  lemma CentralMoves(w: World, w': World, k: nat)
    requires CentralStep(w, w', k)
    ensures Step(w, w')
  {
    hide CentralStep;
  }

  lemma NodeMoves(w: World, w': World, k: nat)
    requires NodeStep(w, w', k)
    ensures Step(w, w')
  {
    hide NodeStep;
  }

  // ---------------------------------------------------------------- the node

  class NodeSide {
    var w: World
    var calls: nat
    var tick: nat
    const k: nat
    const others: (nat, World) -> World
    const size: Envelope -> nat

    /** The others follow the protocol and leave the node's end of this session alone. */
    static ghost predicate Rely(others: (nat, World) -> World, k: nat)
    {
      forall i, v :: Inv(v) && k in v.sessions ==>
        && Leads(v, others(i, v)) && k in others(i, v).sessions
        && others(i, v).sessions[k].node == v.sessions[k].node
    }

    ghost predicate Valid()
      reads this
    {
      Inv(w) && Rely(others, k)
    }

    ghost predicate At(n: NodeEnd)
      reads this
    {
      k in w.sessions && w.sessions[k].node == n
    }

    /** The node has opened a stream and said hello. */
    constructor (w: World, k: nat, others: (nat, World) -> World, size: Envelope -> nat, calls: nat)
      requires Inv(w) && Rely(others, k)
      ensures Valid() && this.w == w && this.k == k
    {
      this.w, this.k, this.others, this.size, this.calls, this.tick := w, k, others, size, calls, 0;
    }

    /** The others act; the session may be cut. */
    method Pause(ghost first: World) returns (alive: bool)
      requires Valid() && k in w.sessions && Leads(first, w)
      modifies this`w, this`tick, this`calls
      ensures Valid() && Leads(first, w) && Later(old(w), w) && At(old(w.sessions[k].node))
      ensures calls <= old(calls) && (alive ==> calls < old(calls))
    {
      hide Inv, Later, Leads;
      ghost var was := w;
      w := others(tick, w);
      LeadsKeepsInv(was, w);
      LeadsOn(first, was, w);
      tick := tick + 1;
      alive := calls > 0;
      if alive {
        calls := calls - 1;
      }
    }

    /** One call to the store or the wire. */
    method Become(ghost first: World, next: World)
      requires Valid() && NodeStep(w, next, k) && Leads(first, w)
      modifies this`w
      ensures w == next && Valid() && Leads(first, w)
    {
      hide Inv, Step, Later, Leads, NodeStep;
      NodeMoves(w, next, k);
      LeadsByStep(w, next);
      LeadsKeepsInv(w, next);
      LeadsOn(first, w, next);
      w := next;
    }

    /** One batch goes up and is acknowledged; the pushed cursor follows the acknowledgement. */
    method SendOne(ghost first: World, from: nat, chunk: seq<Envelope>, more: bool) returns (ok: bool)
      requires Valid() && At(Sending(from)) && Leads(first, w) && chunk <= OwnAfter(w.client.own, from)
      modifies this`w, this`tick, this`calls
      ensures Valid() && Leads(first, w) && k in w.sessions && calls <= old(calls) && old(w.client.own) <= w.client.own
      ensures ok ==> At(if more then Sending(LastSeq(chunk, from)) else Applying(0)) && calls < old(calls)
      ensures ok ==> DecidedTo(w, LastSeq(chunk, from)) && (chunk != [] ==> w.client.pushed >= LastSeq(chunk, from))
    {
      hide Inv, Leads, Later, Step, Rely, OwnAfter;
      var b := Batch(chunk, more);
      assert SendBatch(w, BatchSent(w, k, b), k, b);
      Become(first, BatchSent(w, k, b));
      ghost var was := w;
      var alive := Pause(first);
      LaterQueue(was, w);
      if !alive || w.sessions[k].reply.None? {
        return false;
      }
      AckIsTrue(w, k);
      assert NodeStep(w, AckTaken(w, k), k);
      Become(first, AckTaken(w, k));
      ok := true;
    }

    /** The others act; what comes next comes next as before. */
    method Continue(ghost first: World, ghost from: nat, ghost rest: seq<Envelope>, ghost start: nat, ghost sent: seq<seq<Envelope>>)
      returns (alive: bool)
      requires Valid() && At(Sending(from)) && Leads(first, w) && first.client.own <= w.client.own
      requires rest <= OwnAfter(w.client.own, from) && Went(w.client.own, start, sent, from)
      modifies this`w, this`tick, this`calls
      ensures Valid() && At(Sending(from)) && Leads(first, w) && first.client.own <= w.client.own
      ensures rest <= OwnAfter(w.client.own, from) && Went(w.client.own, start, sent, from)
      ensures calls <= old(calls) && (alive ==> calls < old(calls)) && old(w.client.own) <= w.client.own
    {
      hide Inv, Leads, Later, Rely, OwnAfter, Went;
      ghost var was := w;
      alive := Pause(first);
      LaterQueue(was, w);
      OwnPageStays(was.client.own, w.client.own, from, rest);
      WentStays(was.client.own, w.client.own, start, sent, from);
    }

    /** One chunk of a page. After the last one the log is asked whether there is more. */
    method PushChunk(ghost first: World, ghost start: nat, ghost sent: seq<seq<Envelope>>, from: nat, ghost rest: seq<Envelope>, chunk: seq<Envelope>, last: bool)
      returns (ok: bool, to: nat, more: bool)
      requires Valid() && At(Sending(from)) && Leads(first, w) && first.client.own <= w.client.own
      requires rest <= OwnAfter(w.client.own, from) && Went(w.client.own, start, sent, from) && chunk <= rest
      modifies this`w, this`tick, this`calls
      ensures Valid() && Leads(first, w) && first.client.own <= w.client.own && old(w.client.own) <= w.client.own && calls <= old(calls)
      ensures !ok ==> Went(w.client.own, start, sent, from)
      ensures ok ==> Went(w.client.own, start, sent + [chunk], to) && rest[|chunk|..] <= OwnAfter(w.client.own, to)
      ensures ok ==> At(if more then Sending(to) else Applying(0)) && (!last ==> more)
      ensures ok && last && more ==> OwnAfter(w.client.own, to) != []
      ensures ok && !more ==> DecidedTo(w, |first.client.own|)
      ensures ok ==> (chunk == [] ==> to == from) && (chunk != [] ==> w.client.pushed >= to)
    {
      hide Inv, Leads, Later, Step, Rely, OwnAfter, DecidedTo, LastSeq, Went;
      more, to := !last, LastSeq(chunk, from);
      NoneLeft(from);
      assert rest[..|chunk|] == chunk;
      if last {
        var alive := Continue(first, from, rest, start, sent);
        if !alive {
          return false, to, more;
        }
        var next := ReadOwnAfter(w.client.own, to, 1);
        more := |next| > 0;
        if !more {
          AllOwn(w, to);
        }
      }
      OwnNext(w, from, rest, |chunk|);
      WentOn(w, start, sent, from, chunk);
      ghost var was := w;
      ok := SendOne(first, from, chunk, more);
      WentStays(was.client.own, w.client.own, start, sent + [chunk], to);
      WentStays(was.client.own, w.client.own, start, sent, from);
      OwnPageStays(was.client.own, w.client.own, to, rest[|chunk|..]);
      OwnPageStays(was.client.own, w.client.own, to, OwnAfter(was.client.own, to));
      if ok && !more {
        DecidedBelow(w, to, |first.client.own|);
      }
    }

    /** One page of the node's events: its chunks sent one by one, each acknowledged before the next;
        an empty page is one empty batch. */
    method PushOwnPage(ghost first: World, start: nat, page: seq<Envelope>) returns (ok: bool, sent: seq<seq<Envelope>>, from: nat, more: bool)
      requires Valid() && At(Sending(start)) && Leads(first, w) && first.client.own <= w.client.own
      requires page <= OwnAfter(w.client.own, start)
      modifies this`w, this`tick, this`calls
      ensures Valid() && Leads(first, w) && first.client.own <= w.client.own && calls <= old(calls) && old(w.client.own) <= w.client.own
      ensures Went(w.client.own, start, sent, from) && PageSent(page, sent, size)
      ensures ok ==> At(if more then Sending(from) else Applying(0)) && sent != []
      ensures ok && more ==> OwnAfter(w.client.own, from) != []
      ensures ok && !more ==> DecidedTo(w, |first.client.own|)
      ensures ok ==> if page == [] then from == start else w.client.pushed >= from
    {
      hide Inv, Leads, Later, Step, Rely, OwnAfter, DecidedTo, LastSeq, Went, PageSent, Sliced, Joined, Chunked;
      var chunks := Chunk(page, size);
      if |chunks| == 0 {
        chunks := [[]];
      }
      sent, from, more := [], start, true;
      NoneWent(w.client.own, start);
      var consumed: nat := 0;
      SliceNone(page, chunks, size);
      for i := 0 to |chunks|
        invariant Valid() && Leads(first, w) && At(Sending(from)) && first.client.own <= w.client.own && calls <= old(calls) && more
        invariant old(w.client.own) <= w.client.own && consumed <= |page| && page[consumed..] <= OwnAfter(w.client.own, from)
        invariant Went(w.client.own, start, sent, from) && Sliced(page, chunks, i, consumed, sent, size) && (i > 0 ==> sent != [])
        invariant i > 0 && i == |chunks| ==> OwnAfter(w.client.own, from) != []
        invariant if page == [] then from == start else i > 0 ==> w.client.pushed >= from
      {
        SliceMore(page, chunks, i, consumed, sent, size);
        var acked, to;
        acked, to, more := PushChunk(first, start, sent, from, page[consumed..], chunks[i], i == |chunks| - 1);
        if !acked {
          return false, sent, from, more;
        }
        consumed := consumed + |chunks[i]|;
        sent := sent + [chunks[i]];
        from := to;
        if !more {
          return true, sent, from, more;
        }
      }
      SliceFits(page, chunks, |chunks|, consumed, sent, size);
      ok := true;
    }

    /** Sends the node's own events above start, page by page, each page read anew: the batches carry
        exactly the events that come next, in order and within both caps; only the first can be empty,
        when there was nothing to send. When it is not cut, every event the node had emitted when it
        began is decided. */
    method PushBacklog(start: nat) returns (ok: bool, sent: seq<seq<Envelope>>, from: nat)
      requires Valid() && At(Sending(start))
      modifies this`w, this`tick, this`calls
      ensures Valid() && Leads(old(w), w) && old(w.client.own) <= w.client.own
      ensures Went(w.client.own, start, sent, from) && FitButFirst(sent, size)
      ensures ok ==> At(Applying(0)) && DecidedTo(w, |old(w).client.own|) && (from == start || w.client.pushed >= from)
    {
      hide Inv, Leads, Later, Step, Rely, OwnAfter, DecidedTo, Went, BatchesFit, FitButFirst, PageSent;
      ghost var first := w;
      LeadsNowhere(w);
      sent, from := [], start;
      NoneWent(w.client.own, start);
      NoneFit(size);
      while true
        invariant Valid() && Leads(first, w) && At(Sending(from)) && first.client.own <= w.client.own
        invariant Went(w.client.own, start, sent, from) && FitButFirst(sent, size)
        invariant if sent == [] then from == start else OwnAfter(w.client.own, from) != []
        decreases calls
      {
        var alive := Continue(first, from, OwnAfter(w.client.own, from), start, sent);
        if !alive {
          return false, sent, from;
        }
        var page := ReadOwnAfter(w.client.own, from, MAX_BATCH_EVENTS);
        ghost var was := w;
        var done, batches, to, more := PushOwnPage(first, from, page);
        WentStays(was.client.own, w.client.own, start, sent, from);
        WentJoin(w, start, sent, from, batches, to);
        FitJoin(sent, batches, page, size);
        sent, from := sent + batches, to;
        if !done {
          return false, sent, from;
        }
        if !more {
          return true, sent, from;
        }
      }
    }

    /** Ingests central's frames in order; after the last one the pulled cursor is written and the
        final acknowledgement sent, both at the position of the last frame. */
    method ApplyDownstream() returns (ok: bool, highest: nat)
      requires Valid() && At(Applying(0))
      modifies this`w, this`tick, this`calls
      ensures Valid() && Leads(old(w), w)
      ensures ok ==> At(Done) && w.sessions[k].last == Some(highest) && w.sessions[k].central == Pushed(highest)
      ensures ok ==> HeldTo(w, highest) && (highest > 0 ==> w.client.pulled == highest)
    {
      hide Inv, Leads, Later, Step, Rely, Ids, HeldTo;
      ghost var first := w;
      LeadsNowhere(w);
      highest := 0;
      while true
        invariant Valid() && Leads(first, w) && At(Applying(highest))
        decreases calls
      {
        var alive := Pause(first);
        if !alive || w.sessions[k].down == [] {
          return false, highest;
        }
        var f := w.sessions[k].down[0];
        assert NodeStep(w, FrameTaken(w, k), k);
        Become(first, FrameTaken(w, k));
        highest := if f.lastOrd > highest then f.lastOrd else highest;
        if f.more {
          continue;
        }
        alive := Pause(first);
        if !alive {
          return false, highest;
        }
        assert NodeStep(w, NodeClosed(w, k), k);
        Become(first, NodeClosed(w, k));
        DoneIsHeld(w, k);
        return true, highest;
      }
    }

    /** Resumes from whichever is lower: what the node thinks it pushed or what central knows. */
    method TakeWelcome(ghost first: World) returns (ok: bool, known: nat, from: nat)
      requires Valid() && At(AwaitWelcome) && Leads(first, w)
      modifies this`w, this`tick, this`calls
      ensures Valid() && Leads(first, w) && old(w.client.own) <= w.client.own
      ensures ok ==> At(Sending(from)) && from <= known && from <= w.client.pushed && (from == known || from == w.client.pushed)
    {
      hide Inv, Leads, Later, Step, Rely;
      known, from := 0, 0;
      ghost var was := w;
      var alive := Pause(first);
      LaterQueue(was, w);
      if !alive || w.sessions[k].reply.None? {
        return false, known, from;
      }
      known := w.sessions[k].reply.value;
      from := ResumeFrom(known, w.client.pushed);
      assert NodeStep(w, Welcomed(w, k), k);
      Become(first, Welcomed(w, k));
      ok := true;
    }

    /** A whole session, cut anywhere, is a path of the state machine. */
    method Session() returns (ok: bool)
      requires Valid() && At(AwaitWelcome)
      modifies this`w, this`tick, this`calls
      ensures Valid() && Leads(old(w), w)
      ensures ok ==> At(Done) && DecidedTo(w, |old(w).client.own|)
    {
      hide Inv, Leads, Later, Step, Rely, DecidedTo, HeldTo, Went, FitButFirst;
      ghost var first := w;
      LeadsNowhere(w);
      var known, from;
      ok, known, from := TakeWelcome(first);
      if !ok {
        return;
      }
      ghost var was;
      was := w;
      var sent;
      ok, sent, from := PushBacklog(from);
      LeadsOn(first, was, w);
      if !ok {
        return;
      }
      DecidedBelow(w, |was.client.own|, |first.client.own|);
      was := w;
      var highest;
      ok, highest := ApplyDownstream();
      LeadsOn(first, was, w);
      LeadsKeepsInv(was, w);
      DecidedLater(was, w);
    }
  }

  // ---------------------------------------------------------------- batches

  /** The batches carry the node's events above start up to number from, in order. */
  ghost predicate Went(own: seq<Envelope>, start: nat, sent: seq<seq<Envelope>>, from: nat)
  {
    Joined(sent) <= OwnAfter(own, start) && from == LastSeq(Joined(sent), start)
  }

  ghost predicate BatchesFit(sent: seq<seq<Envelope>>, size: Envelope -> nat)
  {
    forall i :: 0 <= i < |sent| ==> Fits(sent[i], size)
  }

  lemma NoneLeft(from: nat)
    ensures LastSeq([], from) == from
  {
  }

  lemma NoneWent(own: seq<Envelope>, start: nat)
    ensures Went(own, start, [], start)
  {
  }

  /** All fit, except that the first may be empty. */
  ghost predicate FitButFirst(sent: seq<seq<Envelope>>, size: Envelope -> nat)
  {
    BatchesFit(sent, size) || (sent != [] && sent[0] == [] && BatchesFit(sent[1..], size))
  }

  lemma NoneFit(size: Envelope -> nat)
    ensures FitButFirst([], size)
  {
  }

  lemma WentStays(own: seq<Envelope>, more: seq<Envelope>, start: nat, sent: seq<seq<Envelope>>, from: nat)
    requires Went(own, start, sent, from) && own <= more
    ensures Went(more, start, sent, from)
  {
    hide OwnAfter, Joined;
    OwnPageStays(own, more, start, Joined(sent));
  }

  lemma {:induction false} JoinedConcat(a: seq<seq<Envelope>>, b: seq<seq<Envelope>>)
    ensures Joined(a + b) == Joined(a) + Joined(b)
    decreases |b|
  {
    if b == [] {
      assert a + b == a;
    } else {
      var init, last := b[..|b| - 1], b[|b| - 1];
      assert (a + b)[..|a + b| - 1] == a + init && (a + b)[|a + b| - 1] == last;
      JoinedConcat(a, init);
      assert Joined(a) + (Joined(init) + last) == (Joined(a) + Joined(init)) + last;
    }
  }

  lemma NextGoesOn(own: seq<Envelope>, node: NodeId, start: nat, a: seq<Envelope>, b: seq<Envelope>)
    requires Numbered(own, node) && a <= OwnAfter(own, start) && b <= OwnAfter(own, LastSeq(a, start))
    ensures a + b <= OwnAfter(own, start) && LastSeq(a + b, start) == LastSeq(b, LastSeq(a, start))
  {
    hide OwnAfter;
    OwnAfterIs(own, node, start);
    if a == [] {
      assert a + b == b;
    } else {
      assert a[|a| - 1] == own[start + |a| - 1];
      OwnAfterIs(own, node, start + |a|);
      assert own[start..][..|a|] == a && own[start..][|a|..] == own[start + |a|..];
    }
  }

  lemma WentJoin(w: World, start: nat, a: seq<seq<Envelope>>, from: nat, b: seq<seq<Envelope>>, to: nat)
    requires Inv(w) && Went(w.client.own, start, a, from) && Went(w.client.own, from, b, to)
    ensures Went(w.client.own, start, a + b, to)
  {
    QueueRises(w);
    hide Inv, OwnAfter, Joined, LastSeq, Numbered;
    JoinedConcat(a, b);
    NextGoesOn(w.client.own, w.name, start, Joined(a), Joined(b));
  }

  lemma WentOn(w: World, start: nat, sent: seq<seq<Envelope>>, from: nat, chunk: seq<Envelope>)
    requires Inv(w) && Went(w.client.own, start, sent, from) && chunk <= OwnAfter(w.client.own, from)
    ensures Went(w.client.own, start, sent + [chunk], LastSeq(chunk, from))
  {
    hide Inv, OwnAfter, LastSeq;
    assert [chunk][..0] == [];
    assert Joined([chunk]) == chunk;
    WentJoin(w, start, sent, from, [chunk], LastSeq(chunk, from));
  }

  lemma OwnChunkOfPage(page: seq<Envelope>, chunks: seq<seq<Envelope>>, i: nat, consumed: nat)
    requires Joined(chunks) == page && i < |chunks| && consumed <= |page| && Joined(chunks[..i]) == page[..consumed]
    ensures var n := consumed + |chunks[i]|;
            && n <= |page| && Joined(chunks[..i + 1]) == page[..n] && chunks[..i + 1] == chunks[..i] + [chunks[i]]
            && chunks[i] == page[consumed..][..|chunks[i]|] && page[consumed..][|chunks[i]|..] == page[n..]
  {
    hide Joined;
    JoinedSplit(chunks, i);
    JoinedGrows(chunks, i + 1);
    assert page[..consumed + |chunks[i]|] == page[..consumed] + chunks[i];
  }

  lemma ChunksJoinToSome(chunks: seq<seq<Envelope>>, size: Envelope -> nat)
    requires Chunked(chunks, size) && chunks != []
    ensures Joined(chunks) != []
  {
  }

  /** What sending a page, or a part of it, looks like. */
  ghost predicate PageSent(page: seq<Envelope>, sent: seq<seq<Envelope>>, size: Envelope -> nat)
  {
    if page == [] then sent == [] || sent == [[]] else BatchesFit(sent, size)
  }

  /** The first i chunks of a page have been sent. */
  ghost predicate Sliced(page: seq<Envelope>, chunks: seq<seq<Envelope>>, i: nat, consumed: nat, sent: seq<seq<Envelope>>, size: Envelope -> nat)
  {
    && Joined(chunks) == page && (Chunked(chunks, size) || (chunks == [[]] && page == []))
    && i <= |chunks| && consumed <= |page| && Joined(chunks[..i]) == page[..consumed] && sent == chunks[..i]
  }

  lemma SliceNone(page: seq<Envelope>, chunks: seq<seq<Envelope>>, size: Envelope -> nat)
    requires (Joined(chunks) == page && Chunked(chunks, size)) || (chunks == [[]] && Joined([]) == page)
    ensures Sliced(page, chunks, 0, 0, [], size) && page[0..] == page
  {
    assert chunks[..0] == [];
    if chunks == [[]] { assert Joined([[]]) == []; }
  }

  lemma SliceMore(page: seq<Envelope>, chunks: seq<seq<Envelope>>, i: nat, consumed: nat, sent: seq<seq<Envelope>>, size: Envelope -> nat)
    requires Sliced(page, chunks, i, consumed, sent, size) && i < |chunks|
    ensures consumed + |chunks[i]| <= |page| && Sliced(page, chunks, i + 1, consumed + |chunks[i]|, sent + [chunks[i]], size)
    ensures chunks[i] <= page[consumed..] && page[consumed..][|chunks[i]|..] == page[consumed + |chunks[i]|..]
    ensures PageSent(page, sent, size) && PageSent(page, sent + [chunks[i]], size)
    ensures page == [] <==> chunks[i] == []
  {
    hide Joined, Chunked, PageSent;
    OwnChunkOfPage(page, chunks, i, consumed);
    if page != [] { ChunkFits(chunks, i, size); }
    SliceFits(page, chunks, i, consumed, sent, size);
    SliceFits(page, chunks, i + 1, consumed + |chunks[i]|, sent + [chunks[i]], size);
  }

  lemma SliceFits(page: seq<Envelope>, chunks: seq<seq<Envelope>>, i: nat, consumed: nat, sent: seq<seq<Envelope>>, size: Envelope -> nat)
    requires Sliced(page, chunks, i, consumed, sent, size)
    ensures PageSent(page, sent, size)
  {
    hide Joined, Chunked, Fits;
    if page != [] {
      forall j | 0 <= j < i
        ensures Fits(chunks[j], size)
      {
        ChunkFits(chunks, j, size);
      }
    } else if Chunked(chunks, size) && chunks != [] {
      ChunksJoinToSome(chunks, size);
    }
  }

  lemma FitJoin(a: seq<seq<Envelope>>, b: seq<seq<Envelope>>, page: seq<Envelope>, size: Envelope -> nat)
    requires FitButFirst(a, size) && PageSent(page, b, size) && (page == [] ==> a == [])
    ensures FitButFirst(a + b, size)
  {
    hide Fits;
    if a == [] {
      assert a + b == b;
    } else {
      assert (a + b)[1..] == a[1..] + b;
    }
  }

  lemma DoneIsHeld(w: World, k: nat)
    requires Inv(w) && k in w.sessions && w.sessions[k].node.Done?
    ensures w.sessions[k].central.Pushed? && w.sessions[k].last == Some(w.sessions[k].central.cursor) && HeldTo(w, w.sessions[k].central.cursor)
  {
    assert SessionOk(w, w.sessions[k]);
  }

  lemma AckIsTrue(w: World, k: nat)
    requires Inv(w) && k in w.sessions && w.sessions[k].node.AwaitAck? && w.sessions[k].reply.Some?
    ensures DecidedTo(AckTaken(w, k), w.sessions[k].node.from)
    ensures w.sessions[k].node.count > 0 ==> w.sessions[k].reply.value >= w.sessions[k].node.from
  {
    assert SessionOk(w, w.sessions[k]);
  }

  lemma DecidedBelow(w: World, n: nat, m: nat)
    requires DecidedTo(w, n) && m <= n
    ensures DecidedTo(w, m)
  {
  }

  lemma OwnNext(w: World, from: nat, page: seq<Envelope>, n: nat)
    requires Inv(w) && page <= OwnAfter(w.client.own, from) && n <= |page|
    ensures page[..n] <= OwnAfter(w.client.own, from) && page[n..] <= OwnAfter(w.client.own, LastSeq(page[..n], from))
  {
    hide OwnAfter, LastSeq;
    QueueRises(w);
    OwnChunkIsNext(w.client.own, w.name, from, page, n);
  }

  /** With nothing left above a number, the node has emitted no more than that. */
  lemma AllOwn(w: World, to: nat)
    requires Inv(w) && OwnAfter(w.client.own, to) == []
    ensures |w.client.own| <= to
  {
    QueueRises(w);
    OwnAfterIs(w.client.own, w.name, to);
    hide Inv;
  }
}
