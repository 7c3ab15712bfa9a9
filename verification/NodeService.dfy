/** A warehouse node as it runs: the in-memory state mutated event by event, the projection tables
    upserted row by row, and the service that ties the two to the log.
 */
module NodeService {
  import opened Stamps
  import opened Events
  import opened Clock
  import opened Warehouse
  import opened NodeState
  import opened StockTable
  import CentralMemory
  import Central

  /** domain.State: stock, transfers and buffered receipts, updated in place. */
  class LiveState {
    const home: NodeId
    var stock: Stock
    var transfers: map<string, Transfer>
    var pending: map<string, seq<Movement>>

    function Value(): State
      reads this
    {
      State(stock, transfers, pending)
    }

    constructor (home: NodeId)
      ensures this.home == home && Value() == NEW_STATE
    {
      this.home := home;
      stock, transfers, pending := map[], map[], map[];
    }

    method AddStock(k: StockKey, delta: real)
      modifies this`stock
      ensures stock == Add(old(stock), k, delta)
    {
      var v := (if k in stock then stock[k] else 0.0) + delta;
      if v == 0.0 {
        stock := stock - {k};
      } else {
        stock := stock[k := v];
      }
    }

    method MoveOne(m: Movement)
      modifies this`stock
      ensures stock == Move(old(stock), m)
    {
      AddStock(FromKey(m), -m.qty);
      AddStock(ToKey(m), m.qty);
    }

    /** Adds lines to totals, and moves them too when they are this node's own. */
    method Take(totals: Totals, lines: seq<Movement>, mine: bool) returns (r: Totals)
      modifies this`stock
      ensures r == Tally(totals, lines) && stock == if mine then MoveAll(old(stock), lines) else old(stock)
    {
      hide Move;
      r := totals;
      for i := 0 to |lines|
        invariant r == Tally(totals, lines[..i]) && stock == if mine then MoveAll(old(stock), lines[..i]) else old(stock)
      {
        assert lines[..i + 1][..i] == lines[..i];
        var k := KeyOf(lines[i]);
        r := r[k := (if k in r then r[k] else 0.0) + lines[i].qty];
        if mine {
          MoveOne(lines[i]);
        }
      }
      assert lines[..|lines|] == lines;
    }

    method ApplyDispatch(transfer: string, source: NodeId, destination: NodeId, lines: seq<Movement>)
      modifies this
      ensures Value() == Dispatched(home, old(Value()), transfer, source, destination, lines)
    {
      hide Tally, MoveAll, FullyReceived;
      var t := Transfer(source, destination, map[], map[], false);
      if transfer in transfers {
        t := transfers[transfer];
      }
      var dispatched := Take(t.dispatched, lines, home == source);
      t := t.(dispatched := dispatched);
      if transfer in pending {
        var received := Take(t.received, pending[transfer], home == destination);
        t := t.(received := received);
        if !t.complete && FullyReceived(t.dispatched, t.received) {
          t := t.(complete := true);
        }
        pending := pending - {transfer};
      }
      transfers := transfers[transfer := t];
    }

    method ApplyReceipt(transfer: string, lines: seq<Movement>)
      modifies this
      ensures Value() == Received(home, old(Value()), transfer, lines)
    {
      hide Tally, MoveAll, FullyReceived;
      if transfer !in transfers {
        if lines != [] {
          pending := pending[transfer := (if transfer in pending then pending[transfer] else []) + lines];
        }
        return;
      }
      var t := transfers[transfer];
      var received := Take(t.received, lines, home == t.destination);
      t := t.(received := received);
      if !t.complete && FullyReceived(t.dispatched, t.received) {
        t := t.(complete := true);
      }
      transfers := transfers[transfer := t];
    }

    /** The only mutator. */
    method ApplyEvent(env: Envelope)
      modifies this
      ensures Value() == Apply(home, old(Value()), env)
    {
      hide Dispatched, Received, Move;
      match env.body
      case GoodsReceived(_, _, _, move) => MoveOne(move);
      case PutAway(move) => MoveOne(move);
      case Picked(move) => MoveOne(move);
      case StockAdjusted(move, _) => MoveOne(move);
      case TransferDispatched(transfer, source, destination, lines) => ApplyDispatch(transfer, source, destination, lines);
      case TransferReceived(transfer, lines) => ApplyReceipt(transfer, lines);
      case _ =>
    }
  }

  /** projection.Set: the stock and transfers tables and the applied markers. */
  class ProjectionSet {
    const home: NodeId
    var stock: Stock
    var rows: map<string, TransferRow>
    var applied: set<EventId>

    function Value(): Table
      reads this
    {
      Table(stock, rows, applied)
    }

    constructor (home: NodeId)
      ensures this.home == home && Value() == EMPTY_TABLE
    {
      this.home := home;
      stock, rows, applied := map[], map[], {};
    }

    /** Folds one event in, once. */
    method ApplyEvent(env: Envelope)
      modifies this
      ensures Value() == Projected(home, old(Value()), env)
    {
      hide Move, ApplyTransfer;
      if env.id in applied {
        return;
      }
      var moves := TableMoves(home, rows, env.body);
      for i := 0 to |moves|
        invariant stock == MoveAll(old(stock), moves[..i]) && rows == old(rows) && applied == old(applied)
      {
        assert moves[..i + 1][..i] == moves[..i];
        AddStock(FromKey(moves[i]), -moves[i].qty);
        AddStock(ToKey(moves[i]), moves[i].qty);
        MoveIs(MoveAll(old(stock), moves[..i]), moves[i]);
      }
      assert moves[..|moves|] == moves;
      rows := ApplyTransfer(rows, env);
      applied := applied + {env.id};
    }

    static lemma MoveIs(s: Stock, m: Movement)
      ensures Move(s, m) == Add(Add(s, FromKey(m), -m.qty), ToKey(m), m.qty)
    {
    }

    /** An upsert, then a delete of a balance that reached zero. */
    method AddStock(k: StockKey, delta: real)
      modifies this`stock
      ensures stock == Add(old(stock), k, delta)
    {
      stock := stock[k := (if k in stock then stock[k] else 0.0) + delta];
      if stock[k] == 0.0 {
        stock := stock - {k};
      }
    }
  }

  lemma FoldMore(home: NodeId, es: seq<Envelope>, i: nat)
    requires i < |es|
    ensures Fold(home, es[..i + 1]) == Apply(home, Fold(home, es[..i]), es[i])
    ensures ProjectAll(home, es[..i + 1]) == Projected(home, ProjectAll(home, es[..i]), es[i])
  {
    assert es[..i + 1][..i] == es[..i];
  }

  lemma ProjectMore(home: NodeId, es: seq<Envelope>, e: Envelope)
    ensures ProjectAll(home, es + [e]) == Projected(home, ProjectAll(home, es), e)
  {
  }

  lemma ListsMore(es: seq<Envelope>, log: Central.Envelopes, e: Envelope)
    requires Lists(es, log.Values) && e.id !in log && forall id :: id in log ==> log[id].id == id
    ensures Lists(es + [e], log[e.id := e].Values)
  {
    var log' := log[e.id := e];
    assert forall x :: x in log'.Values <==> x in log.Values || x == e by {
      assert log'[e.id] == e;
      forall x | x in log.Values
        ensures x in log'.Values
      {
        var id :| id in log && log[id] == x;
        assert log'[id] == x;
      }
    }
    assert e !in es;
  }

  lemma ListedIds(es: seq<Envelope>, log: Central.Envelopes)
    requires Lists(es, log.Values) && forall id :: id in log ==> log[id].id == id
    ensures DistinctIds(es) && forall e :: e in es ==> e.id in log && log[e.id] == e
  {
    forall i, j | 0 <= i < j < |es|
      ensures es[i].id != es[j].id
    {
      assert es[i] in log.Values && es[j] in log.Values;
    }
  }

  /** The clock after merging the readings of envs in turn. */
  function ClockPast(c: Hlc, envs: seq<Envelope>, now: Int64, node: NodeId): Hlc
  {
    if envs == [] then c else MergeStamps(ClockPast(c, envs[..|envs| - 1], now, node), envs[|envs| - 1].hlc, now, node)
  }

  function ClockTicks(c: Hlc, now: Int64, node: NodeId, n: nat): Hlc
  {
    if n == 0 then c else Tick(ClockTicks(c, now, node, n - 1), now, node)
  }

  /** The events of one command are stamped in rising order, after everything stamped before. */
  lemma {:induction false} TicksRise(c: Hlc, now: Int64, node: NodeId, i: nat, j: nat)
    requires i < j && forall n :: i <= n < j ==> !Saturated(ClockTicks(c, now, node, n))
    ensures Before(ClockTicks(c, now, node, i), ClockTicks(c, now, node, j))
    decreases j
  {
    hide Before, Tick, Saturated;
    var last := ClockTicks(c, now, node, j - 1);
    TickSortsAfter(last, now, node);
    if i < j - 1 {
      TicksRise(c, now, node, i, j - 1);
      BeforeTransitive(ClockTicks(c, now, node, i), last, ClockTicks(c, now, node, j));
    }
  }

  const NO_READING := Hlc(0, 0, "")

  /** The clock of a reopened log: the latest stored reading, whoever took it. */
  ghost predicate Recovered(home: NodeId, log: Central.Envelopes, c: Hlc)
  {
    if log == map[] then c == NO_READING
    else
      && c.node == home && (exists id :: id in log && log[id].hlc.wall == c.wall && log[id].hlc.logical == c.logical)
      && forall id :: id in log ==> !LaterReading(log[id].hlc, c)
  }

  /** A restart never emits a stamp that sorts before one already stored, whatever the wall clock. */
  lemma EmittedAfterReopen(home: NodeId, log: Central.Envelopes, c: Hlc, now: Int64, id: EventId)
    requires Recovered(home, log, c) && id in log && !Saturated(c)
    ensures Before(log[id].hlc, Tick(c, now, home))
  {
    hide Before, Tick, Saturated;
    TickSortsAfter(c, now, home);
    TickIsLater(c, log[id].hlc, now, home);
  }

  lemma TickIsLater(c: Hlc, a: Hlc, now: Int64, node: NodeId)
    requires !LaterReading(a, c) && Before(c, Tick(c, now, node)) && c.node == node
    ensures Before(a, Tick(c, now, node))
  {
  }

  /** No reading taken or merged on the way is saturated. */
  ghost predicate Roomy(c: Hlc, envs: seq<Envelope>, now: Int64, node: NodeId)
  {
    forall i :: 0 <= i < |envs| ==> !Saturated(envs[i].hlc) && !Saturated(ClockPast(c, envs[..i], now, node))
  }

  /** Anything emitted after an ingest sorts after everything ingested, whatever the wall clock. */
  lemma {:induction false} EmittedAfterIngested(c: Hlc, envs: seq<Envelope>, now: Int64, node: NodeId, i: nat, later: Int64)
    requires Roomy(c, envs, now, node) && i < |envs| && !Saturated(ClockPast(c, envs, now, node))
    ensures Before(envs[i].hlc, Tick(ClockPast(c, envs, now, node), later, node))
  {
    hide Before, MergeStamps, Tick, Saturated;
    TickSortsAfter(ClockPast(c, envs, now, node), later, node);
    IngestedBefore(c, envs, now, node, i);
    BeforeTransitive(envs[i].hlc, ClockPast(c, envs, now, node), Tick(ClockPast(c, envs, now, node), later, node));
  }

  lemma {:induction false} IngestedBefore(c: Hlc, envs: seq<Envelope>, now: Int64, node: NodeId, i: nat)
    requires Roomy(c, envs, now, node) && i < |envs|
    ensures Before(envs[i].hlc, ClockPast(c, envs, now, node))
  {
    hide Before, MergeStamps, Saturated;
    var n := |envs| - 1;
    var init := envs[..n];
    var before := ClockPast(c, init, now, node);
    assert !Saturated(envs[n].hlc) && !Saturated(before);
    MergeSortsAfterIff(before, envs[n].hlc, now, node);
    if i < n {
      assert forall j :: 0 <= j < n ==> init[j] == envs[j] && init[..j] == envs[..j];
      IngestedBefore(c, init, now, node, i);
      BeforeTransitive(envs[i].hlc, before, ClockPast(c, envs, now, node));
    }
  }

  /** node.Service: one warehouse node. */
  class Service {
    const home: NodeId
    var log: Central.Envelopes
    var seqNo: nat
    var clock: Hlc
    var state: LiveState
    const tables: ProjectionSet
    // the log in the order its events were folded into the tables, and in the order last replayed
    ghost var arrival: seq<Envelope>
    ghost var replay: seq<Envelope>

    ghost predicate LogOk()
      reads this
    {
      && (forall id :: id in log ==> log[id].id == id)
      && (forall id :: id in log && id.node == home ==> id.seqNo <= seqNo)
      && Lists(arrival, log.Values)
    }

    /** The tables have folded in every event of the log once; the state replays all of it. */
    ghost predicate Valid()
      reads this, state, tables
    {
      && LogOk() && tables.home == home && tables.Value() == ProjectAll(home, arrival)
      && state.home == home && Lists(replay, log.Values) && state.Value() == Fold(home, replay)
    }

    /** Opens the node over a stored log: the tables catch up in replay order, the state replays. */
    constructor (home: NodeId, log: Central.Envelopes)
      requires forall id :: id in log ==> log[id].id == id
      ensures Valid() && this.home == home && this.log == log && Recovered(home, log, this.clock)
    {
      hide Apply, Projected, Lists, ProjectAll, Fold, Recovered;
      var top := HighestOwn(home, log);
      var clock := HighestReading(home, log);
      this.home, this.log, this.seqNo, this.clock := home, log, top, clock;
      this.state := new LiveState(home);
      this.tables := new ProjectionSet(home);
      this.arrival, this.replay := [], [];
      new;
      CatchUp();
      RebuildState();
    }

    static method HighestReading(home: NodeId, log: Central.Envelopes) returns (c: Hlc)
      ensures Recovered(home, log, c)
    {
      c := NO_READING;
      var left := log.Keys;
      while left != {}
        invariant left <= log.Keys && (left == log.Keys ==> c == NO_READING)
        invariant left != log.Keys ==> c.node == home && exists id :: id in log && log[id].hlc.wall == c.wall && log[id].hlc.logical == c.logical
        invariant forall id :: id in log && id !in left ==> !LaterReading(log[id].hlc, c)
        decreases |left|
      {
        var id :| id in left;
        var first := left == log.Keys;
        left := left - {id};
        if first || LaterReading(log[id].hlc, c) {
          c := log[id].hlc.(node := home);
          assert log[id].hlc.wall == c.wall && log[id].hlc.logical == c.logical;
        }
      }
    }

    static method HighestOwn(home: NodeId, log: Central.Envelopes) returns (top: nat)
      ensures forall id :: id in log && id.node == home ==> id.seqNo <= top
      ensures top == 0 || EventId(home, top) in log
    {
      top := 0;
      var left := log.Keys;
      while left != {}
        invariant left <= log.Keys && (top == 0 || EventId(home, top) in log)
        invariant forall id :: id in log && id.node == home ==> id.seqNo <= top || id in left
        decreases |left|
      {
        var id :| id in left;
        left := left - {id};
        if id.node == home && id.seqNo > top {
          top := id.seqNo;
        }
      }
    }

    method CatchUp()
      requires (forall id :: id in log ==> log[id].id == id) && (forall id :: id in log && id.node == home ==> id.seqNo <= seqNo)
      requires tables.home == home && tables.Value() == EMPTY_TABLE
      modifies this`arrival, tables
      ensures LogOk() && tables.Value() == ProjectAll(home, arrival)
    {
      hide Projected, Lists, ProjectAll;
      var order := ReadAll();
      FoldNothing(home);
      for i := 0 to |order|
        invariant tables.Value() == ProjectAll(home, order[..i])
      {
        FoldMore(home, order, i);
        tables.ApplyEvent(order[i]);
      }
      assert order[..|order|] == order;
      arrival := order;
    }

    /** What tables and state agree on. */
    lemma TablesMatchState()
      requires Valid() && home != "" && SaneLog(log.Values) && AllInbound(arrival)
      ensures tables.stock == state.stock <==> NoneMisplaced(home, HeadingsOf(arrival), arrival)
    {
      hide ProjectAll, Fold, Lists, SaneLog, AllInbound, NoneMisplaced;
      ListedIds(arrival, log);
      TableMatchesReplayIff(home, arrival, replay, log.Values);
    }

    /** Every event in replay order. */
    method ReadAll() returns (order: seq<Envelope>)
      ensures Lists(order, log.Values)
      ensures forall i, j :: 0 <= i < j < |order| ==> !Central.Replays(order[j], order[i])
    {
      hide Central.Replays;
      order := [];
      var left := log.Values;
      while left != {}
        invariant left <= log.Values
        invariant Lists(order, log.Values - left)
        invariant forall i, j :: 0 <= i < j < |order| ==> !Central.Replays(order[j], order[i])
        invariant forall d, e :: d in order && e in left ==> !Central.Replays(e, d)
        decreases |left|
      {
        CentralMemory.ForemostExists(left);
        var e :| CentralMemory.Foremost(e, left);
        assert e !in order;
        order := order + [e];
        left := left - {e};
      }
    }

    /** Replays the whole log into a fresh state. */
    method RebuildState()
      requires LogOk() && tables.home == home && tables.Value() == ProjectAll(home, arrival)
      modifies this`state, this`replay
      ensures Valid() && fresh(state)
    {
      hide Apply, Projected, Lists, ProjectAll, Fold;
      var order := ReadAll();
      var made := new LiveState(home);
      FoldNothing(home);
      for i := 0 to |order|
        invariant made.home == home && made.Value() == Fold(home, order[..i])
        invariant LogOk() && tables.home == home && tables.Value() == ProjectAll(home, arrival)
      {
        FoldMore(home, order, i);
        made.ApplyEvent(order[i]);
      }
      assert order[..|order|] == order;
      state, replay := made, order;
    }

    static lemma FoldNothing(home: NodeId)
      ensures Fold(home, []) == NEW_STATE && ProjectAll(home, []) == EMPTY_TABLE
    {
    }

    /** Stores an event unless its id is known, and folds it into the tables unless it was. */
    method Store(env: Envelope) returns (added: bool)
      requires LogOk() && tables.home == home && tables.Value() == ProjectAll(home, arrival)
      modifies this`log, this`seqNo, this`arrival, tables
      ensures LogOk() && tables.Value() == ProjectAll(home, arrival)
      ensures added == (env.id !in old(log)) && log == if added then old(log)[env.id := env] else old(log)
      ensures arrival == if added then old(arrival) + [env] else old(arrival)
      ensures seqNo == if added && env.id.node == home && env.id.seqNo > old(seqNo) then env.id.seqNo else old(seqNo)
    {
      hide Projected, Lists, ProjectAll;
      added := env.id !in log;
      ProjectMore(home, arrival, env);
      AppliedAre(home, arrival, env.id);
      ListedIds(arrival, log);
      KnownIsApplied(env);
      if added {
        ListsMore(arrival, log, env);
        log := log[env.id := env];
        arrival := arrival + [env];
        if env.id.node == home && env.id.seqNo > seqNo {
          seqNo := env.id.seqNo;
        }
        tables.ApplyEvent(env);
      } else {
        tables.ApplyEvent(env);
      }
    }

    lemma KnownIsApplied(env: Envelope)
      requires LogOk()
      ensures env.id in log ==> Projected(home, ProjectAll(home, arrival), env) == ProjectAll(home, arrival)
    {
      hide ProjectAll;
      AppliedAre(home, arrival, env.id);
      if env.id in log {
        assert log[env.id] in log.Values && log[env.id] in arrival;
      }
    }

    /** Folds in envelopes produced elsewhere; overlapping re-delivery changes nothing. */
    method Ingest(envs: seq<Envelope>, now: Int64) returns (added: nat)
      requires Valid()
      modifies this, tables
      ensures Valid()
      ensures forall e :: e in envs ==> e.id in log
      ensures forall id :: id in old(log) ==> id in log && log[id] == old(log)[id]
      ensures forall id :: id in log ==> id in old(log) || log[id] in envs
      ensures old(arrival) <= arrival && |arrival| == |old(arrival)| + added
      ensures clock == ClockPast(old(clock), envs, now, home)
    {
      hide Lists, ProjectAll, Fold, MergeStamps;
      added := 0;
      for i := 0 to |envs|
        invariant LogOk() && tables.Value() == ProjectAll(home, arrival)
        invariant forall e :: e in envs[..i] ==> e.id in log
        invariant forall id :: id in old(log) ==> id in log && log[id] == old(log)[id]
        invariant forall id :: id in log ==> id in old(log) || log[id] in envs
        invariant old(arrival) <= arrival && |arrival| == |old(arrival)| + added
        invariant clock == ClockPast(old(clock), envs[..i], now, home)
      {
        assert envs[..i + 1][..i] == envs[..i];
        clock := MergeStamps(clock, envs[i].hlc, now, home);
        var isNew := Store(envs[i]);
        assert envs[..i + 1] == envs[..i] + [envs[i]];
        added := added + if isNew then 1 else 0;
      }
      assert envs[..|envs|] == envs;
      RebuildState();
    }

    /** Seals a command's events with the next own numbers and readings, stores and folds them in.
        A rejected command never gets here and writes nothing. */
    method Execute(drafts: seq<Draft>, now: Int64) returns (envs: seq<Envelope>)
      requires Valid()
      modifies this, tables
      ensures Valid() && |envs| == |drafts|
      ensures forall i :: 0 <= i < |envs| ==>
                && envs[i] == Envelope(EventId(home, old(seqNo) + 1 + i), drafts[i].aggregate, ClockTicks(old(clock), now, home, i + 1), None, drafts[i].body)
                && envs[i].id !in old(log) && envs[i].id in log && log[envs[i].id] == envs[i]
      ensures arrival == old(arrival) + envs && clock == ClockTicks(old(clock), now, home, |drafts|)
    {
      hide Lists, ProjectAll, Fold, Tick;
      envs := [];
      for i := 0 to |drafts|
        invariant LogOk() && tables.Value() == ProjectAll(home, arrival)
        invariant |envs| == i && seqNo == old(seqNo) + i && arrival == old(arrival) + envs
        invariant forall id :: id in old(log) ==> id in log
        invariant forall j :: 0 <= j < i ==>
                    && envs[j] == Envelope(EventId(home, old(seqNo) + 1 + j), drafts[j].aggregate, ClockTicks(old(clock), now, home, j + 1), None, drafts[j].body)
                    && envs[j].id !in old(log) && envs[j].id in log && log[envs[j].id] == envs[j]
        invariant clock == ClockTicks(old(clock), now, home, i)
      {
        clock := Tick(clock, now, home);
        var env := Envelope(EventId(home, seqNo + 1), drafts[i].aggregate, clock, None, drafts[i].body);
        var added := Store(env);
        assert old(arrival) + (envs + [env]) == old(arrival) + envs + [env];
        envs := envs + [env];
      }
      RebuildState();
    }
  }
}
