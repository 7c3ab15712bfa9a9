/** warehouse-node's replication stream between one node and central: what the two cursors promise
    when sessions overlap, stall and die after any frame, and the queue and the node's log keep
    growing meanwhile. Each end of a session takes its steps by itself; what is between them is on
    the wire.
 */
module Replication {
  import opened Stamps
  import opened Events
  import opened Warehouse
  import opened Central
  import opened Frames

  /** Central's side, for one node: which events have a recorded decision, how far the two cursors
      are, and the queue downstream. */
  datatype Server = Server(decided: set<EventId>, pushed: nat, delivered: nat, queue: seq<Outbound>, nextOrd: nat)

  /** The node's side: its own events, what its log holds of what was sent down, its cursors. */
  datatype Client = Client(own: seq<Envelope>, held: set<EventId>, pushed: nat, pulled: nat)

  datatype Batch = Batch(envs: seq<Envelope>, more: bool)

  /** How far the node is: greeted; about to send from a number; waiting for an acknowledgement of a
      batch up to a number; applying frames, having seen up to a position; about to acknowledge; finished. */
  datatype NodeEnd =
    | AwaitWelcome
    | Sending(from: nat)
    | AwaitAck(from: nat, more: bool, count: nat)
    | Applying(highest: nat)
    | Closing(highest: nat)
    | Done

  /** How far central is: receiving batches; arbitrating the events of one; about to push; pushing
      from a position; waiting for the final acknowledgement. */
  datatype CentralEnd =
    | Receiving
    | Arbitrating(batch: Batch, done: nat, highest: nat)
    | Turning
    | Pushing(cursor: nat)
    | Pushed(cursor: nat)

  /** Both ends, and what is on the wire: a batch going up, a welcome or acknowledgement and frames
      coming down, the final acknowledgement going up. The frames start after position base. */
  datatype Session = Session(node: NodeEnd, central: CentralEnd, up: Option<Batch>, reply: Option<nat>, down: seq<DownFrame>,
                             base: nat, last: Option<nat>)

  datatype World = World(name: NodeId, server: Server, client: Client, sessions: map<nat, Session>)

  ghost predicate Init(w: World)
  {
    w.server == Server({}, 0, 0, [], 0) && w.client == Client([], {}, 0, 0) && w.sessions == map[]
  }

  function Put(w: World, k: nat, x: Session): World
  {
    w.(sessions := w.sessions[k := x])
  }

  // ---------------------------------------------------------------- around the sessions

  ghost predicate NodeEmits(w: World, w': World, env: Envelope)
  {
    env.id == EventId(w.name, |w.client.own| + 1) && w' == w.(client := w.client.(own := w.client.own + [env]))
  }

  ghost predicate CentralQueues(w: World, w': World, env: Envelope)
  {
    var s := w.server;
    w' == w.(server := s.(queue := s.queue + [Outbound(s.nextOrd + 1, env)], nextOrd := s.nextOrd + 1))
  }

  /** Another target's entry takes the next position. */
  ghost predicate OthersQueue(w: World, w': World)
  {
    w' == w.(server := w.server.(nextOrd := w.server.nextOrd + 1))
  }

  ghost predicate Die(w: World, w': World, k: nat)
  {
    w' == w.(sessions := w.sessions - {k})
  }

  // ---------------------------------------------------------------- the node's end

  /** The lower of what the node thinks it pushed and what central admits to. */
  function ResumeFrom(known: nat, pushed: nat): nat
  {
    if known < pushed then known else pushed
  }

  function Welcomed(w: World, k: nat): World
    requires k in w.sessions && w.sessions[k].reply.Some?
  {
    var x := w.sessions[k];
    Put(w, k, x.(node := Sending(ResumeFrom(x.reply.value, w.client.pushed)), reply := None))
  }

  function LastSeq(envs: seq<Envelope>, from: nat): nat
  {
    if envs == [] then from else envs[|envs| - 1].id.seqNo
  }

  function BatchSent(w: World, k: nat, b: Batch): World
    requires k in w.sessions && w.sessions[k].node.Sending?
  {
    var x := w.sessions[k];
    Put(w, k, x.(node := AwaitAck(LastSeq(b.envs, x.node.from), b.more, |b.envs|), up := Some(b)))
  }

  /** Any number of the node's events that come next after from. */
  ghost predicate SendBatch(w: World, w': World, k: nat, b: Batch)
  {
    && k in w.sessions && w.sessions[k].node.Sending?
    && b.envs <= OwnAfter(w.client.own, w.sessions[k].node.from)
    && w' == BatchSent(w, k, b)
  }

  function AckTaken(w: World, k: nat): World
    requires k in w.sessions && w.sessions[k].node.AwaitAck? && w.sessions[k].reply.Some?
  {
    var x := w.sessions[k];
    var seen := x.reply.value;
    Put(w, k, x.(node := if x.node.more then Sending(x.node.from) else Applying(0), reply := None))
      .(client := if seen > 0 then w.client.(pushed := seen) else w.client)
  }

  function Ids(envs: seq<Envelope>): set<EventId>
  {
    set e | e in envs :: e.id
  }

  function FrameTaken(w: World, k: nat): World
    requires k in w.sessions && w.sessions[k].node.Applying? && w.sessions[k].down != []
  {
    var x := w.sessions[k];
    var f := x.down[0];
    var highest := if f.lastOrd > x.node.highest then f.lastOrd else x.node.highest;
    Put(w, k, x.(node := if f.more then Applying(highest) else Closing(highest), down := x.down[1..], base := f.lastOrd))
      .(client := w.client.(held := w.client.held + Ids(f.envs)))
  }

  /** The node records how far it got and tells central. */
  function NodeClosed(w: World, k: nat): World
    requires k in w.sessions && w.sessions[k].node.Closing?
  {
    var x := w.sessions[k];
    var highest := x.node.highest;
    Put(w, k, x.(node := Done, last := Some(highest)))
      .(client := if highest > 0 then w.client.(pulled := highest) else w.client)
  }

  ghost predicate NodeStep(w: World, w': World, k: nat)
  {
    && k in w.sessions
    && var x := w.sessions[k];
    || (x.node.AwaitWelcome? && x.reply.Some? && w' == Welcomed(w, k))
    || (exists b :: SendBatch(w, w', k, b))
    || (x.node.AwaitAck? && x.reply.Some? && w' == AckTaken(w, k))
    || (x.node.Applying? && x.down != [] && w' == FrameTaken(w, k))
    || (x.node.Closing? && w' == NodeClosed(w, k))
  }

  // ---------------------------------------------------------------- central's end

  function Greeted(w: World, k: nat): World
  {
    Put(w, k, Session(AwaitWelcome, Receiving, None, Some(w.server.pushed), [], 0, None))
  }

  function BatchTaken(w: World, k: nat): World
    requires k in w.sessions && w.sessions[k].up.Some?
  {
    var x := w.sessions[k];
    Put(w, k, x.(central := Arbitrating(x.up.value, 0, w.server.pushed), up := None))
  }

  function Higher(highest: nat, id: EventId, node: NodeId): nat
  {
    if id.node == node && id.seqNo > highest then id.seqNo else highest
  }

  function OneArbitrated(w: World, k: nat): World
    requires k in w.sessions && w.sessions[k].central.Arbitrating? && w.sessions[k].central.done < |w.sessions[k].central.batch.envs|
  {
    var x := w.sessions[k];
    var c := x.central;
    var id := c.batch.envs[c.done].id;
    Put(w, k, x.(central := Arbitrating(c.batch, c.done + 1, Higher(c.highest, id, w.name))))
      .(server := w.server.(decided := w.server.decided + {id}))
  }

  function BatchFinished(w: World, k: nat): World
    requires k in w.sessions && w.sessions[k].central.Arbitrating?
  {
    var x := w.sessions[k];
    var c := x.central;
    Put(w, k, x.(central := if c.batch.more then Receiving else Turning, reply := Some(c.highest)))
      .(server := w.server.(pushed := c.highest))
  }

  function PushBegun(w: World, k: nat): World
    requires k in w.sessions
  {
    Put(w, k, w.sessions[k].(central := Pushing(w.server.delivered), base := w.server.delivered))
  }

  function WithFrame(x: Session, f: DownFrame): Session
  {
    x.(central := if f.more then Pushing(f.lastOrd) else Pushed(f.lastOrd), down := x.down + [f])
  }

  function FrameSent(w: World, k: nat, f: DownFrame): World
    requires k in w.sessions
  {
    var x := w.sessions[k];
    Put(w, k, WithFrame(x, f))
  }

  /** Any number of the entries that come next after the cursor. */
  ghost predicate SendFrame(w: World, w': World, k: nat, f: DownFrame)
  {
    && k in w.sessions && w.sessions[k].central.Pushing?
    && Carried(w.server.queue, w.sessions[k].central.cursor, f)
    && w' == FrameSent(w, k, f)
  }

  function Concluded(w: World, k: nat): World
    requires k in w.sessions && w.sessions[k].last.Some?
  {
    var ord := w.sessions[k].last.value;
    w.(server := if ord > 0 then w.server.(delivered := ord) else w.server, sessions := w.sessions - {k})
  }

  ghost predicate CentralStep(w: World, w': World, k: nat)
  {
    && k in w.sessions
    && var x := w.sessions[k];
    || (x.central.Receiving? && x.up.Some? && w' == BatchTaken(w, k))
    || (x.central.Arbitrating? && x.central.done < |x.central.batch.envs| && w' == OneArbitrated(w, k))
    || (x.central.Arbitrating? && x.central.done == |x.central.batch.envs| && w' == BatchFinished(w, k))
    || (x.central.Turning? && w' == PushBegun(w, k))
    || (exists f :: SendFrame(w, w', k, f))
    || (x.central.Pushed? && x.last.Some? && w' == Concluded(w, k))
  }

  ghost predicate Step(w: World, w': World)
  {
    || OthersQueue(w, w')
    || (exists env :: NodeEmits(w, w', env) || CentralQueues(w, w', env))
    || (exists k :: k !in w.sessions && w' == Greeted(w, k))
    || (exists k :: Die(w, w', k))
    || (exists k :: NodeStep(w, w', k))
    || (exists k :: CentralStep(w, w', k))
  }

  ghost predicate Run(r: seq<World>)
  {
    && r != [] && Init(r[0])
    && forall i, j :: 0 <= i < j < |r| && j == i + 1 ==> Step(r[i], r[j])
  }

  // ---------------------------------------------------------------- the invariant

  ghost predicate DecidedTo(w: World, n: nat)
  {
    forall i :: 1 <= i <= n ==> EventId(w.name, i) in w.server.decided
  }

  ghost predicate HeldTo(w: World, ord: nat)
  {
    && ord <= w.server.nextOrd
    && forall i :: 0 <= i < |w.server.queue| && w.server.queue[i].ord <= ord ==> w.server.queue[i].env.id in w.client.held
  }

  /** The batch ends at number from and follows on numbers that are decided. */
  ghost predicate BatchOk(w: World, envs: seq<Envelope>, from: nat)
  {
    && |envs| <= from && DecidedTo(w, from - |envs|)
    && forall i :: 0 <= i < |envs| ==> envs[i].id == EventId(w.name, from - |envs| + 1 + i)
  }

  ghost predicate UpOk(w: World, x: Session)
  {
    match x.node
    case AwaitWelcome => x.central.Receiving? && x.up.None?
    case Sending(from) => DecidedTo(w, from) && x.central.Receiving? && x.up.None? && x.reply.None?
    case AwaitAck(from, more, count) =>
      if x.up.Some? then
        x.reply.None? && x.central.Receiving? && x.up.value.more == more && |x.up.value.envs| == count && BatchOk(w, x.up.value.envs, from)
      else if x.central.Arbitrating? then
        && x.reply.None? && x.central.batch.more == more && |x.central.batch.envs| == count && BatchOk(w, x.central.batch.envs, from)
        && x.central.done <= count && DecidedTo(w, from - count + x.central.done) && DecidedTo(w, x.central.highest)
        && (x.central.done > 0 ==> x.central.highest >= from - count + x.central.done)
      else x.reply.Some? && DecidedTo(w, from) && (x.central.Receiving? <==> more) && (count > 0 ==> x.reply.value >= from)
    case _ => x.up.None? && x.reply.None? && !x.central.Receiving? && !x.central.Arbitrating?
  }

  function Before(down: seq<DownFrame>, base: nat, i: nat): nat
    requires i <= |down|
  {
    if i == 0 then base else down[i - 1].lastOrd
  }

  /** The frames on the wire carry, one after the other, all that is queued between base and cursor. */
  ghost predicate Chain(queue: seq<Outbound>, down: seq<DownFrame>, base: nat, cursor: nat)
  {
    && cursor == Before(down, base, |down|)
    && forall i :: 0 <= i < |down| ==> Carried(queue, Before(down, base, i), down[i])
  }

  /** Only the last frame of a push says there is no more. */
  ghost predicate Flagged(down: seq<DownFrame>, open: bool)
  {
    forall i :: 0 <= i < |down| ==> (down[i].more <==> i < |down| - 1 || open)
  }

  ghost predicate DownOk(w: World, x: Session)
  {
    && (match x.central
        case Pushing(cursor) => HeldTo(w, x.base) && Chain(w.server.queue, x.down, x.base, cursor) && Flagged(x.down, true)
        case Pushed(cursor) => HeldTo(w, x.base) && Chain(w.server.queue, x.down, x.base, cursor) && Flagged(x.down, false)
        case _ => x.down == [])
    && (match x.node
        case Applying(highest) => HeldTo(w, highest) && (highest == 0 || (highest == x.base && !x.central.Turning?)) && (x.central.Pushed? ==> x.down != [])
        case Closing(highest) => HeldTo(w, highest) && highest == x.base && x.central == Pushed(highest) && x.down == []
        case Done => x.central.Pushed? && x.down == [] && x.last == Some(x.central.cursor) && HeldTo(w, x.central.cursor)
        case _ => x.central.Pushed? ==> x.down != [])
    && (x.last.Some? ==> x.node.Done?)
  }

  ghost predicate SessionOk(w: World, x: Session)
  {
    (x.reply.Some? ==> DecidedTo(w, x.reply.value)) && UpOk(w, x) && DownOk(w, x)
  }

  ghost predicate QueueOk(s: Server)
  {
    Rising(s.queue) && forall i :: 0 <= i < |s.queue| ==> 0 < s.queue[i].ord <= s.nextOrd
  }

  ghost predicate CursorsOk(w: World)
  {
    && DecidedTo(w, w.server.pushed) && DecidedTo(w, w.client.pushed)
    && HeldTo(w, w.server.delivered) && HeldTo(w, w.client.pulled)
  }

  ghost predicate Inv(w: World)
  {
    && QueueOk(w.server) && Numbered(w.client.own, w.name) && CursorsOk(w)
    && forall k :: k in w.sessions ==> SessionOk(w, w.sessions[k])
  }

  /** Decisions, holdings and the node's own events only grow, and nothing is queued at a position
      already passed. */
  ghost predicate Later(w: World, w': World)
  {
    && w'.name == w.name && w.client.own <= w'.client.own
    && w.server.decided <= w'.server.decided && w.client.held <= w'.client.held
    && w.server.nextOrd <= w'.server.nextOrd && w.server.queue <= w'.server.queue
    && (forall i :: |w.server.queue| <= i < |w'.server.queue| ==> w'.server.queue[i].ord > w.server.nextOrd)
  }

  lemma DecidedLater(w: World, w': World)
    requires Later(w, w')
    ensures forall n :: DecidedTo(w, n) ==> DecidedTo(w', n)
  {
  }

  lemma HeldLater(w: World, w': World)
    requires Later(w, w')
    ensures forall ord :: HeldTo(w, ord) ==> HeldTo(w', ord)
  {
  }

  lemma ChainLater(queue: seq<Outbound>, more: seq<Outbound>, down: seq<DownFrame>, base: nat, cursor: nat)
    requires Chain(queue, down, base, cursor) && queue <= more
    ensures Chain(more, down, base, cursor)
  {
    hide Carried;
    forall i | 0 <= i < |down|
      ensures Carried(more, Before(down, base, i), down[i])
    {
      CarriedStays(queue, more, Before(down, base, i), down[i]);
    }
  }

  lemma SessionLater(w: World, w': World, x: Session)
    requires Later(w, w') && SessionOk(w, x)
    ensures SessionOk(w', x)
  {
    hide DecidedTo, HeldTo, Chain;
    DecidedLater(w, w');
    HeldLater(w, w');
    if x.central.Pushing? || x.central.Pushed? {
      ChainLater(w.server.queue, w'.server.queue, x.down, x.base, x.central.cursor);
    }
    hide Later;
  }

  /** A step that is only later, moves no cursor without reason, and leaves session k in order. */
  lemma StepAt(w: World, w': World, k: nat)
    requires Inv(w) && Later(w, w') && QueueOk(w'.server) && Numbered(w'.client.own, w'.name)
    requires w'.server.pushed == w.server.pushed || DecidedTo(w', w'.server.pushed)
    requires w'.client.pushed == w.client.pushed || DecidedTo(w', w'.client.pushed)
    requires w'.server.delivered == w.server.delivered || HeldTo(w', w'.server.delivered)
    requires w'.client.pulled == w.client.pulled || HeldTo(w', w'.client.pulled)
    requires forall j :: j in w'.sessions && j != k ==> j in w.sessions && w'.sessions[j] == w.sessions[j]
    requires k in w'.sessions ==> SessionOk(w', w'.sessions[k])
    ensures Inv(w')
  {
    hide DecidedTo, HeldTo, SessionOk, Later, QueueOk, Numbered;
    DecidedLater(w, w');
    HeldLater(w, w');
    forall j | j in w'.sessions
      ensures SessionOk(w', w'.sessions[j])
    {
      if j != k { SessionLater(w, w', w.sessions[j]); }
    }
  }

  // ---------------------------------------------------------------- steps keep it

  lemma NextBatch(w: World, from: nat, envs: seq<Envelope>)
    requires Numbered(w.client.own, w.name) && DecidedTo(w, from) && envs <= OwnAfter(w.client.own, from)
    ensures BatchOk(w, envs, LastSeq(envs, from))
  {
    hide OwnAfter;
    OwnAfterIs(w.client.own, w.name, from);
    if envs != [] {
      var n := |envs|;
      assert envs[n - 1] == w.client.own[from + n - 1];
      forall i | 0 <= i < n
        ensures envs[i].id == EventId(w.name, from + 1 + i)
      {
        assert envs[i] == w.client.own[from..][i];
      }
    }
  }

  lemma WelcomedStep(w: World, k: nat)
    requires Inv(w) && k in w.sessions && w.sessions[k].node.AwaitWelcome? && w.sessions[k].reply.Some?
    ensures Inv(Welcomed(w, k))
  {
    var w' := Welcomed(w, k);
    assert SessionOk(w, w.sessions[k]);
    hide Chain, HeldTo, Numbered, QueueOk, DecidedTo;
    assert Later(w, w');
    DecidedLater(w, w');
    HeldLater(w, w');
    StepAt(w, w', k);
  }

  lemma SendBatchStep(w: World, w': World, k: nat, b: Batch)
    requires Inv(w) && SendBatch(w, w', k, b)
    ensures Inv(w')
  {
    var x := w.sessions[k];
    assert SessionOk(w, x);
    NextBatch(w, x.node.from, b.envs);
    hide Chain, HeldTo, Numbered, QueueOk, LastSeq;
    assert Later(w, w');
    HeldLater(w, w');
    StepAt(w, w', k);
  }

  lemma AckTakenStep(w: World, k: nat)
    requires Inv(w) && k in w.sessions && w.sessions[k].node.AwaitAck? && w.sessions[k].reply.Some?
    ensures Inv(AckTaken(w, k))
  {
    var w' := AckTaken(w, k);
    assert SessionOk(w, w.sessions[k]);
    assert HeldTo(w', 0);
    hide Chain, HeldTo, Numbered, QueueOk, DecidedTo;
    assert Later(w, w');
    DecidedLater(w, w');
    HeldLater(w, w');
    StepAt(w, w', k);
  }

  lemma FrameAhead(w: World, cursor: nat, f: DownFrame)
    requires QueueOk(w.server) && Carried(w.server.queue, cursor, f)
    ensures f.envs == [] ==> f.lastOrd == cursor
    ensures f.envs != [] ==> f.lastOrd <= w.server.nextOrd
  {
    hide Carried;
    CarriedIsBetween(w.server.queue, cursor, f);
    CarriedNothing(w.server.queue, cursor, f);
  }

  lemma CarriedNothing(queue: seq<Outbound>, cursor: nat, f: DownFrame)
    requires Carried(queue, cursor, f)
    ensures f.envs == [] ==> f.lastOrd == cursor
  {
  }

  lemma FrameIngested(w: World, w': World, f: DownFrame, base: nat)
    requires QueueOk(w.server) && HeldTo(w, base) && Carried(w.server.queue, base, f) && w'.server == w.server
    requires w.client.held + Ids(f.envs) == w'.client.held
    ensures HeldTo(w', f.lastOrd) && base <= f.lastOrd
  {
    hide Carried, Rising;
    FrameAhead(w, base, f);
    CarriedIsBetween(w.server.queue, base, f);
  }

  lemma ChainTail(queue: seq<Outbound>, down: seq<DownFrame>, base: nat, cursor: nat)
    requires Chain(queue, down, base, cursor) && down != []
    ensures Carried(queue, base, down[0]) && Chain(queue, down[1..], down[0].lastOrd, cursor)
  {
    hide Carried;
    assert Carried(queue, Before(down, base, 0), down[0]);
    var rest := down[1..];
    forall i | 0 <= i < |rest|
      ensures Carried(queue, Before(rest, down[0].lastOrd, i), rest[i])
    {
      assert Carried(queue, Before(down, base, i + 1), down[i + 1]);
    }
  }

  /** So all frames together carry exactly what is outstanding between base and cursor, in order. */
  lemma {:induction false} ChainCarriesAll(queue: seq<Outbound>, down: seq<DownFrame>, base: nat, cursor: nat)
    requires Rising(queue) && Chain(queue, down, base, cursor)
    ensures EnvsSent(down) + EnvsOf(After(queue, cursor)) == EnvsOf(After(queue, base))
    decreases |down|
  {
    hide After, Rising, Carried;
    if down == [] {
      assert EnvsSent(down) == [];
    } else {
      var n := |down| - 1;
      var init, mid, f := down[..n], Before(down, base, n), down[n];
      ChainInit(queue, down, base, cursor);
      ChainCarriesAll(queue, init, base, mid);
      FrameCuts(queue, mid, f);
      assert EnvsSent(down) == EnvsSent(init) + f.envs;
    }
  }

  lemma ChainInit(queue: seq<Outbound>, down: seq<DownFrame>, base: nat, cursor: nat)
    requires Chain(queue, down, base, cursor) && down != []
    ensures var n := |down| - 1;
            && Chain(queue, down[..n], base, Before(down, base, n)) && Carried(queue, Before(down, base, n), down[n])
            && cursor == down[n].lastOrd
  {
    hide Carried;
    var n := |down| - 1;
    forall i | 0 <= i < n
      ensures Carried(queue, Before(down[..n], base, i), down[..n][i])
    {
      assert Carried(queue, Before(down, base, i), down[i]);
    }
  }

  lemma FrameCuts(queue: seq<Outbound>, from: nat, f: DownFrame)
    requires Rising(queue) && Carried(queue, from, f)
    ensures f.envs + EnvsOf(After(queue, f.lastOrd)) == EnvsOf(After(queue, from))
  {
    hide After, Rising;
    var rest, n := After(queue, from), |f.envs|;
    if n > 0 { AfterDrop(queue, from, n); }
    assert EnvsOf(rest) == EnvsOf(rest[..n]) + EnvsOf(rest[n..]);
  }

  lemma ChainMore(queue: seq<Outbound>, down: seq<DownFrame>, base: nat, cursor: nat, f: DownFrame)
    requires Chain(queue, down, base, cursor) && Carried(queue, cursor, f)
    ensures Chain(queue, down + [f], base, f.lastOrd)
  {
    hide Carried;
    var all := down + [f];
    forall i | 0 <= i < |all|
      ensures Carried(queue, Before(all, base, i), all[i])
    {
      if i < |down| { assert Carried(queue, Before(down, base, i), down[i]); }
    }
  }

  lemma FrameTakenStep(w: World, k: nat)
    requires Inv(w) && k in w.sessions && w.sessions[k].node.Applying? && w.sessions[k].down != []
    ensures Inv(FrameTaken(w, k))
  {
    var x, w' := w.sessions[k], FrameTaken(w, k);
    assert SessionOk(w, x);
    hide Chain, DecidedTo, HeldTo, QueueOk, Numbered, Ids, Carried;
    assert Later(w, w');
    HeldLater(w, w');
    ChainTail(w.server.queue, x.down, x.base, x.central.cursor);
    FrameIngested(w, w', x.down[0], x.base);
    StepAt(w, w', k);
  }

  lemma ClosedStep(w: World, k: nat)
    requires Inv(w) && k in w.sessions && w.sessions[k].node.Closing?
    ensures Inv(NodeClosed(w, k))
  {
    var w' := NodeClosed(w, k);
    assert SessionOk(w, w.sessions[k]);
    hide Chain, DecidedTo, HeldTo, QueueOk, Numbered, Carried;
    assert Later(w, w');
    HeldLater(w, w');
    StepAt(w, w', k);
  }

  lemma DecidedMore(w: World, w': World, n: nat)
    requires DecidedTo(w, n) && w'.name == w.name && w'.server.decided == w.server.decided + {EventId(w.name, n + 1)}
    ensures DecidedTo(w', n + 1)
  {
  }

  lemma ArbitrateStep(w: World, w': World, k: nat)
    requires Inv(w) && k in w.sessions && w.sessions[k].central.Arbitrating?
    requires w.sessions[k].central.done < |w.sessions[k].central.batch.envs| && w' == OneArbitrated(w, k)
    ensures Inv(w')
  {
    var x := w.sessions[k];
    assert SessionOk(w, x);
    var envs, done, from := x.central.batch.envs, x.central.done, x.node.from;
    assert envs[done].id == EventId(w.name, from - |envs| + 1 + done);
    DecidedMore(w, w', from - |envs| + done);
    assert Later(w, w');
    DecidedLater(w, w');
    HeldLater(w, w');
    hide DecidedTo, HeldTo, QueueOk, Numbered;
    StepAt(w, w', k);
  }

  lemma CentralUpStep(w: World, w': World, k: nat)
    requires Inv(w) && k in w.sessions
    requires var x := w.sessions[k];
             || (x.central.Receiving? && x.up.Some? && w' == BatchTaken(w, k))
             || (x.central.Arbitrating? && x.central.done == |x.central.batch.envs| && w' == BatchFinished(w, k))
    ensures Inv(w')
  {
    var x := w.sessions[k];
    assert SessionOk(w, x);
    assert Later(w, w');
    DecidedLater(w, w');
    HeldLater(w, w');
    hide DecidedTo, HeldTo, QueueOk, Numbered, Chain;
    StepAt(w, w', k);
  }

  lemma PushBeginStep(w: World, k: nat)
    requires Inv(w) && k in w.sessions && w.sessions[k].central.Turning?
    ensures Inv(PushBegun(w, k))
  {
    var x, w' := w.sessions[k], PushBegun(w, k);
    assert SessionOk(w, x);
    hide DecidedTo, HeldTo, QueueOk, Numbered, Carried;
    assert Later(w, w');
    DecidedLater(w, w');
    HeldLater(w, w');
    StepAt(w, w', k);
  }

  lemma FrameSentStep(w: World, w': World, k: nat, f: DownFrame)
    requires Inv(w) && SendFrame(w, w', k, f)
    ensures Inv(w')
  {
    var x := w.sessions[k];
    assert SessionOk(w, x);
    FrameSentDown(w, x, f);
    FrameSentUp(w, x, f);
    hide DecidedTo, HeldTo, QueueOk, Numbered, Carried, UpOk, DownOk;
    assert Later(w, w');
    assert SessionOk(w, WithFrame(x, f));
    SessionLater(w, w', WithFrame(x, f));
    hide SessionOk;
    StepAt(w, w', k);
  }

  lemma FrameSentDown(w: World, x: Session, f: DownFrame)
    requires DownOk(w, x) && x.central.Pushing? && Carried(w.server.queue, x.central.cursor, f)
    ensures DownOk(w, WithFrame(x, f))
  {
    ChainMore(w.server.queue, x.down, x.base, x.central.cursor, f);
    FlaggedMore(x.down, f);
    hide HeldTo, Carried, Chain, Flagged;
  }

  lemma FrameSentUp(w: World, x: Session, f: DownFrame)
    requires UpOk(w, x) && x.central.Pushing?
    ensures UpOk(w, WithFrame(x, f))
  {
    hide DecidedTo, BatchOk;
  }

  lemma FlaggedMore(down: seq<DownFrame>, f: DownFrame)
    requires Flagged(down, true)
    ensures Flagged(down + [f], f.more)
  {
  }

  lemma ConcludeStep(w: World, k: nat)
    requires Inv(w) && k in w.sessions && w.sessions[k].last.Some?
    ensures Inv(Concluded(w, k))
  {
    var w' := Concluded(w, k);
    assert SessionOk(w, w.sessions[k]);
    hide DecidedTo, HeldTo, QueueOk, Numbered, Chain, UpOk;
    assert Later(w, w');
    HeldLater(w, w');
    StepAt(w, w', k);
  }

  lemma OutsideStep(w: World, w': World)
    requires Inv(w) && (OthersQueue(w, w') || exists env :: NodeEmits(w, w', env) || CentralQueues(w, w', env))
    ensures Inv(w')
  {
    assert Later(w, w');
    hide DecidedTo, HeldTo, SessionOk;
    forall k | k in w'.sessions
      ensures SessionOk(w', w'.sessions[k])
    {
      SessionLater(w, w', w.sessions[k]);
    }
    DecidedLater(w, w');
    HeldLater(w, w');
  }

  lemma GreetStep(w: World, k: nat)
    requires Inv(w) && k !in w.sessions
    ensures Inv(Greeted(w, k))
  {
    hide DecidedTo, HeldTo, QueueOk, Numbered;
    var w' := Greeted(w, k);
    assert Later(w, w');
    DecidedLater(w, w');
    StepAt(w, w', k);
  }

  lemma DieStep(w: World, w': World, k: nat)
    requires Inv(w) && Die(w, w', k)
    ensures Inv(w')
  {
    hide DecidedTo, HeldTo, QueueOk, Numbered, SessionOk;
    assert Later(w, w');
    StepAt(w, w', k);
  }

  lemma StepKeepsInv(w: World, w': World)
    requires Inv(w) && Step(w, w')
    ensures Inv(w') && Later(w, w')
  {
    StepIsLater(w, w');
    hide Inv, Later, SendBatch, SendFrame;
    if OthersQueue(w, w') || exists env :: NodeEmits(w, w', env) || CentralQueues(w, w', env) {
      OutsideStep(w, w');
    } else if k :| k !in w.sessions && w' == Greeted(w, k) {
      GreetStep(w, k);
    } else if k :| Die(w, w', k) {
      DieStep(w, w', k);
    } else if k :| NodeStep(w, w', k) {
      if w.sessions[k].node.Applying? || w.sessions[k].node.Closing? { NodeDownEnd(w, w', k); } else { NodeUpEnd(w, w', k); }
    } else if k :| CentralStep(w, w', k) {
      CentralEndStep(w, w', k);
    }
  }

  lemma NodeDownEnd(w: World, w': World, k: nat)
    requires Inv(w) && NodeStep(w, w', k) && (w.sessions[k].node.Applying? || w.sessions[k].node.Closing?)
    ensures Inv(w')
  {
    hide Inv;
    if w.sessions[k].node.Applying? { FrameTakenStep(w, k); } else { ClosedStep(w, k); }
  }

  lemma NodeUpEnd(w: World, w': World, k: nat)
    requires Inv(w) && NodeStep(w, w', k) && !w.sessions[k].node.Applying? && !w.sessions[k].node.Closing?
    ensures Inv(w')
  {
    hide Inv;
    if w.sessions[k].node.AwaitWelcome? {
      WelcomedStep(w, k);
    } else if b :| SendBatch(w, w', k, b) {
      SendBatchStep(w, w', k, b);
    } else {
      AckTakenStep(w, k);
    }
  }

  lemma CentralEndStep(w: World, w': World, k: nat)
    requires Inv(w) && CentralStep(w, w', k)
    ensures Inv(w')
  {
    hide Inv;
    var x := w.sessions[k];
    if x.central.Arbitrating? && x.central.done < |x.central.batch.envs| {
      ArbitrateStep(w, w', k);
    } else if x.central.Arbitrating? || x.central.Receiving? {
      CentralUpStep(w, w', k);
    } else if x.central.Turning? {
      PushBeginStep(w, k);
    } else if f :| SendFrame(w, w', k, f) {
      FrameSentStep(w, w', k, f);
    } else {
      ConcludeStep(w, k);
    }
  }

  lemma StepIsLater(w: World, w': World)
    requires Step(w, w')
    ensures Later(w, w')
  {
  }

  lemma {:induction false} RunKeepsInv(r: seq<World>, k: nat)
    requires Run(r) && k < |r|
    ensures Inv(r[k])
  {
    hide Step;
    if k > 0 {
      RunKeepsInv(r, k - 1);
      StepKeepsInv(r[k - 1], r[k]);
    }
  }

  /** In every state of every run, overlapping, stalled and dying sessions included: the pushed cursor
      at n means a recorded decision for each of the node's events 1..n, and the delivered cursor at
      o means the node's log holds every entry queued for it at or below o. */
  lemma CursorsTellTheTruth(r: seq<World>, k: nat)
    requires Run(r) && k < |r|
    ensures var w := r[k];
            && (forall n :: 1 <= n <= w.server.pushed ==> EventId(w.name, n) in w.server.decided)
            && (forall i :: 0 <= i < |w.server.queue| && w.server.queue[i].ord <= w.server.delivered ==> w.server.queue[i].env.id in w.client.held)
  {
    hide Step, Init;
    RunKeepsInv(r, k);
  }
}
