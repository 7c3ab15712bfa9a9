/** A run in which stock is lost: the case StockIsConservedIff shuts out does happen. Nothing stops
    the source of a transfer from recording its arrival: the command only asks that the transfer is
    known and in flight, and central does not look at where a receipt comes from.
 */
module ArbiterWitness {
  import opened Stamps
  import opened Events
  import opened Warehouse
  import opened Central
  import opened Arbiter
  import opened ArbiterRuns
  import opened ArbiterAnswers
  import opened Sums
  import opened Shelves
  import opened Conservation
  import opened TransferStock
  import ArbiterSafety
  import StockTable

  const KEY := Key("sku", "")
  const SENT := StockTable.SENT
  const OWN := Envelope(EventId("north", 2), "T", Hlc(2, 0, "north"), None, TransferReceived("T", [StockTable.LANDING]))
  const REFS := Refs(map["sku" := false], map[], map["south" := {}])
  const EMPTY := Books(REFS, map[], map[], map[])
  const TRUCK := EMPTY.(transit := map[("T", KEY) := Row("north", "south", 1.0, 0.0, false)])
  const TAKEN := EMPTY.(transit := map[("T", KEY) := Row("north", "south", 1.0, 1.0, false)], folded := map[(OWN.id, KEY) := 1.0])
  const TOLD := Outbox(map["south" := [Outbound(1, SENT)]], 1, {("south", SENT.id)})
  const BOTH := Outbox(map["south" := [Outbound(1, SENT)], "north" := [Outbound(2, OWN)]], 2, {("south", SENT.id), ("north", OWN.id)})
  const YES := Decision(Accepted, None)

  lemma SentIsAccepted()
    ensures Judge(EMPTY, SENT) == None
  {
    assert [StockTable.LINE][..0] == [];
    assert UnknownEvents(REFS, []) == [];
  }

  lemma OwnIsAccepted()
    ensures Judge(TRUCK, OWN) == None
  {
    assert KeyOf(StockTable.LANDING) == KEY;
    assert [StockTable.LANDING][..0] == [];
    assert Over(TRUCK, OWN.id, "T", StockTable.LANDING) == 0.0;
    assert OverEvents(TRUCK, OWN.id, "T", []) == [];
    assert UnknownEvents(REFS, []) == [];
  }

  lemma BooksEvolve()
    ensures RecordStep(EMPTY, SENT, None, 0) == TRUCK && RecordStep(TRUCK, OWN, None, 0) == TAKEN
  {
    assert KeyOf(StockTable.LINE) == KEY && KeyOf(StockTable.LANDING) == KEY;
    assert FoldLine(TRUCK, OWN.id, "T", StockTable.LANDING) == AddReceived(TRUCK, OWN.id, "T", KEY, 1.0);
  }

  lemma QueuesEvolve()
    ensures FanOut(NONE, TRUCK, SENT, None) == TOLD && FanOut(TOLD, TAKEN, OWN, None) == BOTH
  {
    assert [SENT][..0] == [] && [OWN][..0] == [];
    assert FanTarget(TRUCK, SENT.body, None) == Some("south");
    assert FanTarget(TAKEN, OWN.body, None) == Some("north") by { assert KeyOf(StockTable.LANDING) == KEY; }
    FirstQueued(NONE, "south", SENT);
    FirstQueued(TOLD, "north", OWN);
    assert Enqueue(NONE, "south", []) == NONE && Enqueue(TOLD, "north", []) == TOLD;
    assert TOLD.enqueued + {("north", OWN.id)} == BOTH.enqueued && NONE.enqueued + {("south", SENT.id)} == TOLD.enqueued;
  }

  lemma FirstQueued(o: Outbox, target: NodeId, env: Envelope)
    requires target !in o.queue && (target, env.id) !in o.enqueued
    ensures EnqueueOne(o, target, env) == Outbox(o.queue[target := [Outbound(o.nextOrd + 1, env)]], o.nextOrd + 1, o.enqueued + {(target, env.id)})
  {
    assert [] + [Outbound(o.nextOrd + 1, env)] == [Outbound(o.nextOrd + 1, env)];
  }

  function WorldOf(events: Envelopes, o: Outbox, b: Books, decisions: map<EventId, Decision>, verdicts: Verdicts, busy: Option<Attempt>): World
  {
    World(Store(Journal(events, ZERO_STAMP, 0), o, b, decisions), verdicts, map[], busy)
  }

  const NONE := Outbox(map[], 0, {})
  const ONE: Envelopes := map[SENT.id := SENT]
  const TWO: Envelopes := map[SENT.id := SENT, OWN.id := OWN]
  const SENT_OK: Verdicts := map[SENT.id := None]
  const ALL_OK: Verdicts := map[SENT.id := None, OWN.id := None]
  const SENT_DONE: map<EventId, Decision> := map[SENT.id := YES]
  const ALL_DONE: map<EventId, Decision> := map[SENT.id := YES, OWN.id := YES]

  /** The dispatch is accepted and relayed to the destination; then the source's own receipt of it
      is accepted, and relayed back to the source. */
  function Stage(i: nat): World
  {
    if i == 0 then WorldOf(map[], NONE, EMPTY, map[], map[], None)
    else if i == 1 then WorldOf(ONE, NONE, EMPTY, map[], map[], Some(Attempt(SENT, None, Recording(0))))
    else if i == 2 then WorldOf(ONE, NONE, TRUCK, map[], map[], Some(Attempt(SENT, None, Recording(1))))
    else if i == 3 then WorldOf(ONE, NONE, TRUCK, map[], SENT_OK, Some(Attempt(SENT, None, Recorded)))
    else if i == 4 then WorldOf(ONE, TOLD, TRUCK, map[], SENT_OK, Some(Attempt(SENT, None, FannedOut)))
    else if i == 5 then WorldOf(ONE, TOLD, TRUCK, SENT_DONE, SENT_OK, None)
    else if i == 6 then WorldOf(TWO, TOLD, TRUCK, SENT_DONE, SENT_OK, Some(Attempt(OWN, None, Recording(0))))
    else if i == 7 then WorldOf(TWO, TOLD, TAKEN, SENT_DONE, SENT_OK, Some(Attempt(OWN, None, Recording(1))))
    else if i == 8 then WorldOf(TWO, TOLD, TAKEN, SENT_DONE, ALL_OK, Some(Attempt(OWN, None, Recorded)))
    else if i == 9 then WorldOf(TWO, BOTH, TAKEN, SENT_DONE, ALL_OK, Some(Attempt(OWN, None, FannedOut)))
    else WorldOf(TWO, BOTH, TAKEN, ALL_DONE, ALL_OK, None)
  }

  lemma DispatchStages()
    ensures Init(Stage(0)) && Step(Stage(0), Stage(1)) && Step(Stage(1), Stage(2)) && Step(Stage(2), Stage(3))
  {
    hide Judge, RecordStep;
    SentIsAccepted();
    BooksEvolve();
    assert Begin(Stage(0), Stage(1), SENT);
    assert Record(Stage(1), Stage(2), 0);
    assert Settle(Stage(2), Stage(3));
  }

  lemma DispatchIsTold()
    ensures Step(Stage(3), Stage(4)) && Step(Stage(4), Stage(5))
  {
    hide FanOut;
    QueuesEvolve();
    assert Fan(Stage(3), Stage(4));
    assert Accept(Stage(4), Stage(5));
  }

  lemma OwnIsTold()
    ensures Step(Stage(8), Stage(9)) && Step(Stage(9), Stage(10))
  {
    hide FanOut;
    QueuesEvolve();
    assert Fan(Stage(8), Stage(9));
    assert SENT_DONE[OWN.id := YES] == ALL_DONE;
    assert Accept(Stage(9), Stage(10));
  }

  lemma OwnBegins()
    ensures Step(Stage(5), Stage(6))
  {
    hide Judge;
    OwnIsAccepted();
    assert ONE[OWN.id := OWN] == TWO;
    assert Begin(Stage(5), Stage(6), OWN);
  }

  lemma OwnIsRecorded()
    ensures Step(Stage(6), Stage(7)) && Step(Stage(7), Stage(8))
  {
    hide RecordStep;
    BooksEvolve();
    assert Record(Stage(6), Stage(7), 0);
    assert SENT_OK[OWN.id := None] == ALL_OK;
    assert Settle(Stage(7), Stage(8));
  }

  lemma WholeRun() returns (r: seq<World>)
    ensures Run(r) && |r| == 11 && r[10] == Stage(10)
  {
    hide Step, Init, Stage;
    DispatchStages();
    DispatchIsTold();
    OwnIsTold();
    OwnBegins();
    OwnIsRecorded();
    r := seq(11, i requires 0 <= i < 11 => Stage(i));
    assert forall i :: 0 <= i < 10 ==> Step(Stage(i), Stage(i + 1));
  }

  const LOGS: map<NodeId, seq<Envelope>> := map["north" := [SENT, OWN], "south" := [SENT]]
  const RESTS: map<NodeId, seq<Envelope>> := map["north" := [], "south" := []]

  lemma LogsHere()
    ensures LogOf(Stage(10).store, "north") == {SENT, OWN} && LogOf(Stage(10).store, "south") == {SENT}
  {
    var s := Stage(10).store;
    assert QueueOf(s.outbox, "north") == [Outbound(2, OWN)] && QueueOf(s.outbox, "south") == [Outbound(1, SENT)];
    assert QueueOf(s.outbox, "north")[0].env == OWN && QueueOf(s.outbox, "south")[0].env == SENT;
  }

  lemma EventsHere()
    ensures TransferEvents(TWO, "T") == {SENT.id, OWN.id} && Groups(TWO, {SENT.id, OWN.id}) == {SENT, OWN}
    ensures Stage(10).store.journal.events == TWO
  {
  }

  lemma NetworkHere()
    ensures Network(Stage(10), LOGS, RESTS, TransferEvents(TWO, "T"))
  {
    hide LogOf, TransferEvents, Groups, Stage;
    LogsHere();
    EventsHere();
    assert {SENT, OWN} - {SENT, OWN} == {} && {SENT} - {SENT, OWN} == {};
  }

  lemma LostHere()
    ensures Sum(Lost(Stage(10), "T", SENT.id, KEY)) == 1.0
  {
    var lost := Lost(Stage(10), "T", SENT.id, KEY);
    assert KeyOf(StockTable.LANDING) == KEY;
    assert lost.Keys == {OWN.id};
    assert lost[OWN.id] == 1.0;
    SumOne(lost, OWN.id);
  }

  lemma IssuedHere()
    ensures Issued(TWO) && SENT.id in TWO && Dispatches(TWO[SENT.id].body, "T")
  {
  }

  lemma LinesAreLive()
    ensures ArbiterSafety.AllLive(REFS, SENT.body.lines) && ArbiterSafety.AllLive(REFS, OWN.body.lines)
  {
  }

  lemma DecidedHere()
    ensures TransferDecided(Stage(10), "T")
  {
    hide TransferEvents, ArbiterSafety.AllLive;
    EventsHere();
    LinesAreLive();
    var w := Stage(10);
    assert w.verdicts == ALL_OK && w.store.decisions == ALL_DONE && w.store.journal.events == TWO && w.store.books.refs == REFS;
    hide Stage;
    assert Decided(w, {SENT.id, OWN.id});
  }

  /** One unit leaves the source's shelf and is on no shelf and no truck afterwards. */
  lemma StockLostOnOwnReceipt() returns (r: seq<World>)
    ensures Run(r)
    ensures var w := r[|r| - 1];
            && Issued(w.store.journal.events) && TransferDecided(w, "T") && Network(w, LOGS, RESTS, TransferEvents(w.store.journal.events, "T"))
            && Sum(Changes(LOGS, RESTS, Shelves(KEY))) + OnTruck(w.store.books, "T", KEY) == -1.0
  {
    hide Inv, Sum, Changes, OnTruck, Lost, Network, TransferDecided, Step, Init, Issued, Stage, TransferEvents, Run;
    r := WholeRun();
    IssuedHere();
    DecidedHere();
    EventsHere();
    NetworkHere();
    RunKeepsInv(r, 10);
    LostHere();
    TransferBalance(Stage(10), "T", SENT.id, KEY, LOGS, RESTS);
  }
}
