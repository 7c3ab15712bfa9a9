/** Stock over the whole network: what goods receipts and transfers come to on the shelves of all
    nodes, against what central has in its books.
 */
module TransferStock {
  import opened Stamps
  import opened Events
  import opened Warehouse
  import opened Central
  import opened Arbiter
  import opened ArbiterRuns
  import opened ArbiterBooks
  import opened ArbiterAnswers
  import opened ArbiterSafety
  import opened Sums
  import opened NodeState
  import opened Shelves
  import opened Compensation
  import opened Conservation

  // ---------------------------------------------------------------- who holds what

  /** Nobody else holds a goods receipt or a refused dispatch; the destination holds an accepted
      dispatch, and the source the receipts of its transfer. */
  lemma HeldBy(w: World, c: EventId, n: NodeId)
    requires Inv(w) && c in w.store.decisions && n != c.node
    ensures c in w.store.journal.events && c in w.verdicts
    ensures w.store.journal.events[c] in LogOf(w.store, n) ==> Concerns(w.store.journal.events, w.verdicts, n, c)
  {
    CauseIsPlain(w, c);
    HeldIff(w, n, w.store.journal.events[c]);
    hide LogOf, ReceiptsOk, TransitOk, VerdictsOk, JournalOk, DecisionsOk, OutboxOk, BusyOk, Concerns;
  }

  lemma HoldsOwn(w: World, c: EventId)
    requires Inv(w) && c in w.store.decisions
    ensures c in w.store.journal.events && w.store.journal.events[c] in LogOf(w.store, c.node)
  {
    CauseIsPlain(w, c);
    HeldIff(w, c.node, w.store.journal.events[c]);
  }

  /** At every node but n0 the event does nothing. */
  lemma OnlyAt(w: World, nodes: set<NodeId>, e: Envelope, n0: NodeId, g: Gauge)
    requires n0 in nodes && forall n :: n in nodes && n != n0 && e in LogOf(w.store, n) ==> MovesIn(n, LogOf(w.store, n), e.body) == []
    ensures Sum(ColumnOf(nodes, e, Contribution(w, g))) == AtNode(w, g, n0, e)
  {
    hide Sum, LogOf, MovesIn;
    SumOne(ColumnOf(nodes, e, Contribution(w, g)), n0);
  }

  lemma Nowhere(w: World, nodes: set<NodeId>, e: Envelope, g: Gauge)
    requires forall n :: n in nodes && e in LogOf(w.store, n) ==> MovesIn(n, LogOf(w.store, n), e.body) == []
    ensures Sum(ColumnOf(nodes, e, Contribution(w, g))) == 0.0
  {
    hide Sum, LogOf, MovesIn;
    SumZero(ColumnOf(nodes, e, Contribution(w, g)));
  }

  // ---------------------------------------------------------------- outcomes

  lemma GoodsOutcome(w: World, nodes: set<NodeId>, c: EventId, g: Gauge)
    requires Inv(w) && Decided(w, {c}) && c.node in nodes && w.store.journal.events[c].body.GoodsReceived?
    ensures Outcome(w, nodes, c, g) == Effect([w.store.journal.events[c].body.move.(qty := RecordedQty(w.store.books.receipts, c))], g)
  {
    hide Inv, LogOf, Effect, DraftMoves, Contribution, ColumnOf, Sum;
    var e := w.store.journal.events[c];
    assert c in w.store.decisions;
    HoldsOwn(w, c);
    forall n | n in nodes && n != c.node
      ensures e !in LogOf(w.store, n)
    {
      HeldBy(w, c, n);
    }
    OnlyAt(w, nodes, e, c.node, g);
    GoodsComeToRecorded(w, c, g);
  }

  lemma DispatchOutcome(w: World, nodes: set<NodeId>, d: EventId, g: Gauge)
    requires Inv(w) && Decided(w, {d}) && d.node in nodes && w.store.journal.events[d].body.TransferDispatched?
    requires IssuedAt(d.node, w.store.journal.events[d].body) && AllLive(w.store.books.refs, w.store.journal.events[d].body.lines)
    ensures Outcome(w, nodes, d, g) == if w.verdicts[d].None? then Effect(w.store.journal.events[d].body.lines, g) else 0.0
  {
    hide Inv, LogOf, Effect, DraftMoves, Contribution, ColumnOf, Sum, Judge, ReturnEvents;
    var e := w.store.journal.events[d];
    assert d in w.store.decisions;
    HoldsOwn(w, d);
    OnlyAt(w, nodes, e, d.node, g);
    KnownVerdict(w, d);
    DispatchVerdict(w.store.books, e);
    RefusedDispatchNetsToZero(e.body.transfer, e.body.lines, g);
    NoDrafts(g);
  }

  /** A receipt lands when the dispatch was accepted and the receipt comes from where it is headed. */
  ghost predicate Lands(w: World, d: EventId, r: EventId)
  {
    d in w.verdicts && w.verdicts[d].None? && d in w.store.journal.events && w.store.journal.events[d].body.TransferDispatched?
    && r.node == w.store.journal.events[d].body.destination
  }

  /** One dispatch d and one receipt r of the same transfer, both decided. */
  ghost predicate Halves(w: World, d: EventId, r: EventId)
  {
    && Inv(w) && Issued(w.store.journal.events) && Decided(w, {d, r})
    && w.store.journal.events[d].body.TransferDispatched?
    && Receives(w.store.journal.events[r].body, w.store.journal.events[d].body.transfer)
  }

  lemma ConcernedSource(w: World, n: NodeId, d: EventId, r: EventId)
    requires Halves(w, d, r) && Concerns(w.store.journal.events, w.verdicts, n, r)
    ensures n == w.store.journal.events[d].body.source
  {
    hide LogOf, ReceiptsOk, TransitOk, VerdictsOk, JournalOk, DecisionsOk, OutboxOk, BusyOk, FanOk, IssuedAt;
    var events, t := w.store.journal.events, w.store.journal.events[d].body.transfer;
    assert Dispatches(events[d].body, t);
  }

  /** A node holds the dispatch of a transfer headed there only if it was accepted. */
  lemma HeadedIff(w: World, n: NodeId, d: EventId, r: EventId)
    requires Halves(w, d, r)
    ensures HeadedTo(LogOf(w.store, n), w.store.journal.events[d].body.transfer, n)
       <==> w.verdicts[d].None? && n == w.store.journal.events[d].body.destination
  {
    var events := w.store.journal.events;
    var g := events[d].body;
    assert d in w.store.decisions;
    assert IssuedAt(d.node, g);
    if x :| x in LogOf(w.store, n) && Dispatches(x.body, g.transfer) && x.body.destination == n {
      HeldIff(w, n, x);
      OneDispatch(w, d, x.id, g.transfer);
      HeldBy(w, d, n);
    }
    if w.verdicts[d].None? && n == g.destination {
      ToldOf(w, d);
      HeldIff(w, n, events[d]);
      CauseIsPlain(w, d);
      assert events[d] in LogOf(w.store, n) && Dispatches(events[d].body, g.transfer);
    }
  }

  lemma OneDispatch(w: World, d: EventId, x: EventId, t: string)
    requires Inv(w) && d in w.store.journal.events && x in w.store.journal.events
    requires Dispatches(w.store.journal.events[d].body, t) && Dispatches(w.store.journal.events[x].body, t)
    ensures x == d
  {
    hide ReceiptsOk, TransitOk, VerdictsOk, JournalOk, DecisionsOk, OutboxOk, BusyOk, FanOk;
  }

  lemma ToldOf(w: World, d: EventId)
    requires Inv(w) && d in w.store.decisions
    ensures d in w.store.journal.events && d in w.verdicts && Told(w.store.journal.events, w.store.outbox, w.store.journal.events[d], w.verdicts[d])
  {
    hide ReceiptsOk, TransitOk, VerdictsOk, JournalOk, DecisionsOk, OutboxOk, BusyOk, EventsOk, Told, Concerns;
  }

  /** Only where the transfer is headed does a receipt move anything, and only if it was issued there;
      a receipt against a refused dispatch lands on no node's stock at all. */
  lemma ReceiptMovesWhereItLands(w: World, n: NodeId, d: EventId, r: EventId)
    requires Halves(w, d, r) && w.store.journal.events[r] in LogOf(w.store, n)
    ensures MovesIn(n, LogOf(w.store, n), w.store.journal.events[r].body)
         == if Lands(w, d, r) && n == r.node then w.store.journal.events[r].body.lines else []
  {
    var events := w.store.journal.events;
    assert IssuedAt(d.node, events[d].body);
    assert r in w.store.decisions;
    HeadedIff(w, n, d, r);
    if n != r.node {
      HeldBy(w, r, n);
      ConcernedSource(w, n, d, r);
    }
  }

  lemma ReceiptOutcome(w: World, nodes: set<NodeId>, d: EventId, r: EventId, g: Gauge)
    requires Halves(w, d, r) && r.node in nodes && AllLive(w.store.books.refs, w.store.journal.events[r].body.lines)
    ensures var lines := w.store.journal.events[r].body.lines;
            Outcome(w, nodes, r, g) == Effect(Folded(w.store.books, r, lines), g) - if Lands(w, d, r) then 0.0 else Effect(lines, g)
  {
    hide LogOf, Effect, DraftMoves, Contribution, ColumnOf, Sum, Inv, Issued, MovesIn, Lands;
    var e := w.store.journal.events[r];
    assert r in w.store.decisions;
    HoldsOwn(w, r);
    forall n | n in nodes && e in LogOf(w.store, n)
      ensures MovesIn(n, LogOf(w.store, n), e.body) == if Lands(w, d, r) && n == r.node then e.body.lines else []
    {
      ReceiptMovesWhereItLands(w, n, d, r);
    }
    LinesComeToFolded(w, r, g);
    if Lands(w, d, r) { OnlyAt(w, nodes, e, r.node, g); } else { Nowhere(w, nodes, e, g); }
  }

  // ---------------------------------------------------------------- effects on the shelves of a key

  lemma {:induction false} OutgoingEffect(ms: seq<Movement>, k: Key)
    requires Outgoing(ms) && DistinctKeys(ms)
    ensures Effect(ms, Shelves(k)) == -QtyAt(ms, k)
  {
    if ms != [] {
      OutgoingEffect(ms[..|ms| - 1], k);
      Unmentioned(ms, k);
    }
  }

  /** Lines come in from outside; a line may come to nothing. */
  ghost predicate Incoming(ms: seq<Movement>)
  {
    forall i :: 0 <= i < |ms| ==> ms[i].src == EXTERNAL && ms[i].dst != EXTERNAL
  }

  lemma {:induction false} IncomingEffect(ms: seq<Movement>, k: Key)
    requires Incoming(ms) && DistinctKeys(ms)
    ensures Effect(ms, Shelves(k)) == QtyAt(ms, k)
  {
    if ms != [] {
      IncomingEffect(ms[..|ms| - 1], k);
      Unmentioned(ms, k);
    }
  }

  lemma Unmentioned(ms: seq<Movement>, k: Key)
    requires DistinctKeys(ms) && ms != []
    ensures KeyOf(ms[|ms| - 1]) == k ==> QtyAt(ms[..|ms| - 1], k) == 0.0
  {
    LastIsNew(ms);
    ReturnTaken("", ms[..|ms| - 1], k);
  }

  lemma {:induction false} FoldedLines(b: Books, id: EventId, ms: seq<Movement>)
    ensures |Folded(b, id, ms)| == |ms|
    ensures forall i :: 0 <= i < |ms| ==> Folded(b, id, ms)[i] == ms[i].(qty := Own(b.folded, id, KeyOf(ms[i])))
  {
    if ms != [] { FoldedLines(b, id, ms[..|ms| - 1]); }
  }

  lemma FoldedEffect(w: World, r: EventId, k: Key)
    requires Inv(w) && r in w.store.journal.events && w.store.journal.events[r].body.TransferReceived?
    requires Inbound(w.store.journal.events[r].body.lines) && DistinctKeys(w.store.journal.events[r].body.lines)
    ensures Effect(Folded(w.store.books, r, w.store.journal.events[r].body.lines), Shelves(k)) == Own(w.store.books.folded, r, k)
  {
    hide ReceiptsOk, VerdictsOk, JournalOk, DecisionsOk, OutboxOk, BusyOk, FanOk, EventsOk, RowOk, Effect, Folded;
    var b, lines := w.store.books, w.store.journal.events[r].body.lines;
    var folded := Folded(b, r, lines);
    FoldedLines(b, r, lines);
    IncomingEffect(folded, k);
    if Mentions(lines, k) {
      var i :| 0 <= i < |lines| && KeyOf(lines[i]) == k;
      QtyAtLine(folded, i);
    } else {
      ReturnTaken("", lines, k);
      ReturnTaken("", folded, k);
      assert (r, k) in b.folded ==> FoldOk(w.store.journal.events, b, r, k);
    }
  }

  // ---------------------------------------------------------------- transfers

  ghost function TransferEvents(events: Envelopes, t: string): set<EventId>
  {
    set id | id in events && (Dispatches(events[id].body, t) || Receives(events[id].body, t))
  }

  /** Every event of the transfer is decided, and all SKUs concerned are live. */
  ghost predicate TransferDecided(w: World, t: string)
  {
    Decided(w, TransferEvents(w.store.journal.events, t)) && TransferRecorded(w, t)
  }

  /** What central counts as on a truck. */
  ghost function OnTruck(b: Books, t: string, k: Key): real
  {
    if (t, k) in b.transit && !b.transit[(t, k)].failed then b.transit[(t, k)].dispatched - b.transit[(t, k)].received else 0.0
  }

  ghost function FoldedBy(w: World, t: string, k: Key): map<EventId, real>
  {
    map r | r in ReceiptsOf(w.store.journal.events, t) :: Own(w.store.books.folded, r, k)
  }

  lemma TruckIs(w: World, t: string, k: Key, d: EventId)
    requires Inv(w) && TransferRecorded(w, t) && d in w.store.journal.events && Dispatches(w.store.journal.events[d].body, t)
    ensures d in w.verdicts
    ensures OnTruck(w.store.books, t, k)
         == if w.verdicts[d].None? then QtyAt(w.store.journal.events[d].body.lines, k) - Sum(FoldedBy(w, t, k)) else 0.0
  {
    if (t, k) in w.store.books.transit {
      hide Inv, TransferRecorded, Sum, QtyAt, TakenBack;
      DispatchNet(w, t, k, d);
      ReceivedIsFolded(w, t, k);
    } else {
      NoRowNothing(w, t, k, d);
      SumZero(FoldedBy(w, t, k));
    }
  }

  lemma NoRowNothing(w: World, t: string, k: Key, d: EventId)
    requires Inv(w) && d in w.verdicts && d in w.store.journal.events && Dispatches(w.store.journal.events[d].body, t)
    requires (t, k) !in w.store.books.transit
    ensures QtyAt(w.store.journal.events[d].body.lines, k) == 0.0
    ensures forall r :: r in ReceiptsOf(w.store.journal.events, t) ==> Own(w.store.books.folded, r, k) == 0.0
  {
    hide Judge, ReceiptsOk, VerdictsOk, JournalOk, DecisionsOk, OutboxOk, BusyOk, FanOk, RowOk;
    var events := w.store.journal.events;
    KnownVerdict(w, d);
    assert WellFormed(events[d].body);
    ReturnTaken("", events[d].body.lines, k);
    forall r | r in ReceiptsOf(events, t)
      ensures Own(w.store.books.folded, r, k) == 0.0
    {
      assert (r, k) in w.store.books.folded ==> FoldOk(events, w.store.books, r, k);
    }
  }

  /** What a receipt of the transfer takes off the books without landing: all of a receipt that comes
      from elsewhere; of one against a refused dispatch, what was taken back from it. */
  ghost function Lost(w: World, t: string, d: EventId, k: Key): map<EventId, real>
    requires d in w.store.journal.events && d in w.verdicts
  {
    map r | r in ReceiptsOf(w.store.journal.events, t) ::
      var claimed := QtyAt(w.store.journal.events[r].body.lines, k);
      if Lands(w, d, r) then 0.0
      else if w.verdicts[d].None? then claimed
      else claimed - Own(w.store.books.folded, r, k)
  }

  lemma TransferSeparates(w: World, nodes: set<NodeId>, t: string)
    requires Inv(w)
    ensures AllSeparable(w, nodes, Groups(w.store.journal.events, TransferEvents(w.store.journal.events, t)))
  {
    var events := w.store.journal.events;
    var part := Groups(events, TransferEvents(events, t));
    assert Conservation.Keyed(events);
    forall n, e | n in nodes && e in LogOf(w.store, n) - part
      ensures MovesIn(n, LogOf(w.store, n) - part, e.body) == MovesIn(n, LogOf(w.store, n), e.body)
    {
      HeldIff(w, n, e);
      GroupsHas(events, TransferEvents(events, t), e);
      hide LogOf, Groups, Inv;
      if x :| e.body.TransferReceived? && x in LogOf(w.store, n) && Dispatches(x.body, e.body.transfer) && x.body.destination == n {
        HeldIff(w, n, x);
        GroupsHas(events, TransferEvents(events, t), x);
        CentralNeverDispatches(w, x);
      }
    }
  }

  lemma CentralNeverDispatches(w: World, x: Envelope)
    requires Inv(w) && x.id in w.store.journal.events && w.store.journal.events[x.id] == x && x.body.TransferDispatched?
    ensures x.causation.None?
  {
    hide ReceiptsOk, TransitOk, VerdictsOk, JournalOk, DecisionsOk, OutboxOk, BusyOk, FanOk;
  }

  lemma OutcomeOfReceipt(w: World, nodes: set<NodeId>, t: string, d: EventId, r: EventId, k: Key)
    requires Halves(w, d, r) && r.node in nodes && w.store.journal.events[d].body.transfer == t
    requires AllLive(w.store.books.refs, w.store.journal.events[r].body.lines)
    ensures Outcome(w, nodes, r, Shelves(k))
         == (if w.verdicts[d].None? then Own(w.store.books.folded, r, k) else 0.0) - Lost(w, t, d, k)[r]
  {
    hide Inv, Effect, Outcome, Folded, QtyAt, DistinctKeys;
    var events := w.store.journal.events;
    assert IssuedAt(r.node, events[r].body);
    CauseIsPlain(w, r);
    var lines := events[r].body.lines;
    ReceiptOutcome(w, nodes, d, r, Shelves(k));
    FoldedEffect(w, r, k);
    IncomingEffect(lines, k);
  }

  lemma OutcomeOfDispatch(w: World, nodes: set<NodeId>, d: EventId, k: Key)
    requires Inv(w) && Issued(w.store.journal.events) && Decided(w, {d}) && d.node in nodes
    requires w.store.journal.events[d].body.TransferDispatched? && AllLive(w.store.books.refs, w.store.journal.events[d].body.lines)
    ensures Outcome(w, nodes, d, Shelves(k)) == if w.verdicts[d].None? then -QtyAt(w.store.journal.events[d].body.lines, k) else 0.0
  {
    hide Inv, Effect, Outcome, QtyAt, DistinctKeys;
    var events := w.store.journal.events;
    assert d in w.store.decisions;
    assert IssuedAt(d.node, events[d].body);
    CauseIsPlain(w, d);
    DispatchOutcome(w, nodes, d, Shelves(k));
    OutgoingEffect(events[d].body.lines, k);
  }

  /** A transfer with dispatch d, its events all decided. */
  ghost predicate Concluded(w: World, t: string, d: EventId)
  {
    && Inv(w) && Issued(w.store.journal.events) && TransferDecided(w, t)
    && d in w.store.journal.events && Dispatches(w.store.journal.events[d].body, t)
  }

  lemma TransferParts(w: World, t: string, d: EventId)
    requires Concluded(w, t, d)
    ensures var events := w.store.journal.events;
            && d in w.verdicts && d in w.store.decisions && AllLive(w.store.books.refs, events[d].body.lines)
            && TransferEvents(events, t) - {d} == ReceiptsOf(events, t) && d in TransferEvents(events, t)
            && Decided(w, ReceiptsOf(events, t)) && Decided(w, {d})
  {
    hide Inv, Issued;
    var events := w.store.journal.events;
    forall r | r in TransferEvents(events, t) && r != d
      ensures r in ReceiptsOf(events, t)
    {
      if Dispatches(events[r].body, t) { OneDispatch(w, d, r, t); }
    }
    assert d in TransferEvents(events, t);
    assert ReceiptsOf(events, t) <= TransferEvents(events, t);
  }

  lemma ReceiptsSum(w: World, nodes: set<NodeId>, t: string, d: EventId, k: Key)
    requires Concluded(w, t, d) && d in w.verdicts && Decided(w, ReceiptsOf(w.store.journal.events, t)) && Decided(w, {d})
    requires forall r :: r in ReceiptsOf(w.store.journal.events, t) ==> r.node in nodes
    ensures Sum(Outcomes(w, nodes, ReceiptsOf(w.store.journal.events, t), Shelves(k))) + Sum(Lost(w, t, d, k))
         == if w.verdicts[d].None? then Sum(FoldedBy(w, t, k)) else 0.0
  {
    hide Inv, Issued, Sum, Outcome, QtyAt, Lands, TransferEvents, AllLive;
    var rest, lost, folded := Outcomes(w, nodes, ReceiptsOf(w.store.journal.events, t), Shelves(k)), Lost(w, t, d, k), FoldedBy(w, t, k);
    var counted: map<EventId, real> := if w.verdicts[d].None? then folded else map r | r in folded :: 0.0;
    forall r | r in rest
      ensures counted[r] == rest[r] + lost[r]
    {
      assert Halves(w, d, r);
      OutcomeOfReceipt(w, nodes, t, d, r, k);
    }
    SumAdd(rest, lost, counted);
    if w.verdicts[d].Some? { SumZero(counted); }
  }

  lemma OutcomesLess(w: World, nodes: set<NodeId>, cs: set<EventId>, d: EventId, g: Gauge)
    requires Decided(w, cs) && d in cs
    ensures Sum(Outcomes(w, nodes, cs, g)) == Outcome(w, nodes, d, g) + Sum(Outcomes(w, nodes, cs - {d}, g))
  {
    hide Sum, Outcome;
    SumAt(Outcomes(w, nodes, cs, g), d);
    assert Outcomes(w, nodes, cs, g) - {d} == Outcomes(w, nodes, cs - {d}, g);
  }

  lemma OutcomesSum(w: World, nodes: set<NodeId>, t: string, d: EventId, k: Key)
    requires Concluded(w, t, d) && forall c :: c in TransferEvents(w.store.journal.events, t) ==> c.node in nodes
    ensures d in w.verdicts
    ensures Sum(Outcomes(w, nodes, TransferEvents(w.store.journal.events, t), Shelves(k))) + OnTruck(w.store.books, t, k) == -Sum(Lost(w, t, d, k))
  {
    hide Inv, Issued, Sum, Outcome, Outcomes, QtyAt, OnTruck, Lost, FoldedBy, TransferEvents, ReceiptsOf, AllLive;
    TransferParts(w, t, d);
    TruckIs(w, t, k, d);
    OutcomesLess(w, nodes, TransferEvents(w.store.journal.events, t), d, Shelves(k));
    OutcomeOfDispatch(w, nodes, d, k);
    ReceiptsSum(w, nodes, t, d, k);
  }

  /** The balance of a decided transfer over the shelves of all nodes and the truck: nothing is ever
      gained, and what is lost is named. */
  lemma TransferBalance(w: World, t: string, d: EventId, k: Key, logs: map<NodeId, seq<Envelope>>, rests: map<NodeId, seq<Envelope>>)
    requires Concluded(w, t, d) && Network(w, logs, rests, TransferEvents(w.store.journal.events, t))
    ensures d in w.verdicts
    ensures Sum(Changes(logs, rests, Shelves(k))) + OnTruck(w.store.books, t, k) == -Sum(Lost(w, t, d, k))
  {
    hide Inv, Issued, Sum, Changes, Outcomes, OnTruck, Lost, AllSeparable, Groups, LogOf, Lists;
    var cs := TransferEvents(w.store.journal.events, t);
    TransferSeparates(w, logs.Keys, t);
    ChangesAreOutcomes(w, logs, rests, cs, Shelves(k));
    OutcomesSum(w, logs.Keys, t, d, k);
  }

  // ---------------------------------------------------------------- when stock is conserved

  /** What all receipts of the transfer claim of a key. */
  ghost function Claimed(w: World, t: string, k: Key): map<EventId, real>
  {
    map r | r in ReceiptsOf(w.store.journal.events, t) :: QtyAt(w.store.journal.events[r].body.lines, k)
  }

  /** Accepted, all receipts that name the key come from where the transfer is headed; refused, no
      more is claimed against it than was dispatched. */
  ghost predicate InOrder(w: World, t: string, d: EventId, k: Key)
    requires d in w.store.journal.events && d in w.verdicts && w.store.journal.events[d].body.TransferDispatched?
  {
    var events := w.store.journal.events;
    if w.verdicts[d].None?
    then forall r :: r in ReceiptsOf(events, t) && Mentions(events[r].body.lines, k) ==> r.node == events[d].body.destination
    else Sum(Claimed(w, t, k)) <= QtyAt(events[d].body.lines, k)
  }

  lemma {:induction false} QtySign(ms: seq<Movement>, k: Key)
    requires Positive(ms)
    ensures QtyAt(ms, k) >= 0.0 && (QtyAt(ms, k) > 0.0 <==> Mentions(ms, k))
  {
    if ms != [] {
      var init := ms[..|ms| - 1];
      QtySign(init, k);
      assert Mentions(ms, k) <==> Mentions(init, k) || KeyOf(ms[|ms| - 1]) == k by {
        assert forall i :: 0 <= i < |init| ==> init[i] == ms[i];
      }
    }
  }

  lemma LostSign(w: World, t: string, d: EventId, k: Key, r: EventId)
    requires Concluded(w, t, d) && d in w.verdicts && r in ReceiptsOf(w.store.journal.events, t)
    ensures var lines := w.store.journal.events[r].body.lines;
            && QtyAt(lines, k) >= 0.0 && (QtyAt(lines, k) > 0.0 <==> Mentions(lines, k))
            && 0.0 <= Own(w.store.books.folded, r, k) <= QtyAt(lines, k)
            && Lost(w, t, d, k)[r] >= 0.0
  {
    hide Inv, Issued, QtyAt, TransferRecorded;
    assert r in TransferEvents(w.store.journal.events, t);
    CauseIsPlain(w, r);
    QtySign(w.store.journal.events[r].body.lines, k);
    FoldedSign(w, r, k);
  }

  lemma FoldedSign(w: World, r: EventId, k: Key)
    requires Inv(w) && r in w.store.journal.events && w.store.journal.events[r].body.TransferReceived?
    requires QtyAt(w.store.journal.events[r].body.lines, k) >= 0.0
    ensures 0.0 <= Own(w.store.books.folded, r, k) <= QtyAt(w.store.journal.events[r].body.lines, k)
  {
    hide ReceiptsOk, VerdictsOk, JournalOk, DecisionsOk, OutboxOk, BusyOk, FanOk, EventsOk, RowOk, QtyAt;
    assert (r, k) in w.store.books.folded ==> FoldOk(w.store.journal.events, w.store.books, r, k);
  }

  /** A receipt was cut back only if the dispatch is used up. */
  lemma CutMeansUsedUp(w: World, t: string, d: EventId, k: Key, r: EventId)
    requires Concluded(w, t, d) && r in ReceiptsOf(w.store.journal.events, t)
    requires Own(w.store.books.folded, r, k) < QtyAt(w.store.journal.events[r].body.lines, k)
    ensures Sum(FoldedBy(w, t, k)) == QtyAt(w.store.journal.events[d].body.lines, k)
  {
    var events, b := w.store.journal.events, w.store.books;
    TransferParts(w, t, d);
    assert r in w.store.decisions && r in w.verdicts;
    if (t, k) in b.transit {
      UsedUp(w, t, k, r);
      hide Inv, TransferRecorded, Sum, QtyAt, TakenBack;
      DispatchNet(w, t, k, d);
      ReceivedIsFolded(w, t, k);
    } else {
      hide Inv, Sum, QtyAt;
      NoRowNothing(w, t, k, d);
      SumZero(FoldedBy(w, t, k));
    }
  }

  lemma UsedUp(w: World, t: string, k: Key, r: EventId)
    requires Inv(w) && r in w.verdicts && r in ReceiptsOf(w.store.journal.events, t) && (t, k) in w.store.books.transit
    requires Own(w.store.books.folded, r, k) < QtyAt(w.store.journal.events[r].body.lines, k)
    ensures w.store.books.transit[(t, k)].received == w.store.books.transit[(t, k)].dispatched
  {
    hide Judge, ReceiptsOk, VerdictsOk, JournalOk, DecisionsOk, OutboxOk, BusyOk, FanOk, RowOk;
    var lines := w.store.journal.events[r].body.lines;
    KnownVerdict(w, r);
    assert WellFormed(w.store.journal.events[r].body);
    QtySign(lines, k);
    assert (r, k) in w.store.books.folded ==> FoldOk(w.store.journal.events, w.store.books, r, k);
    var i :| 0 <= i < |lines| && KeyOf(lines[i]) == k;
    QtyAtLine(lines, i);
    assert LineSettled(w.store.books, r, t, lines[i]);
  }

  /** Nothing is lost exactly when the transfer is in order. */
  lemma NothingLostIff(w: World, t: string, d: EventId, k: Key)
    requires Concluded(w, t, d) && d in w.verdicts
    ensures Sum(Lost(w, t, d, k)) == 0.0 <==> InOrder(w, t, d, k)
    ensures Sum(Lost(w, t, d, k)) >= 0.0
  {
    hide Inv, Issued, Sum, QtyAt, Mentions, TransferRecorded, TransferEvents;
    var events := w.store.journal.events;
    var lost, folded, claimed := Lost(w, t, d, k), FoldedBy(w, t, k), Claimed(w, t, k);
    var sent := QtyAt(events[d].body.lines, k);
    forall r | r in ReceiptsOf(events, t)
      ensures claimed[r] >= 0.0 && (claimed[r] > 0.0 <==> Mentions(events[r].body.lines, k)) && 0.0 <= folded[r] <= claimed[r] && lost[r] >= 0.0
    {
      LostSign(w, t, d, k, r);
    }
    SumSign(lost);
    if w.verdicts[d].Some? {
      SumAdd(lost, folded, claimed);
      FoldedWithin(w, t, d, k);
      if r :| r in lost && lost[r] > 0.0 {
        CutMeansUsedUp(w, t, d, k, r);
      }
    }
  }

  lemma FoldedWithin(w: World, t: string, d: EventId, k: Key)
    requires Concluded(w, t, d)
    ensures Sum(FoldedBy(w, t, k)) <= QtyAt(w.store.journal.events[d].body.lines, k)
  {
    TransferParts(w, t, d);
    if (t, k) in w.store.books.transit {
      hide Inv, TransferRecorded, Sum, QtyAt, TakenBack;
      DispatchNet(w, t, k, d);
      ReceivedIsFolded(w, t, k);
    } else {
      NoRowNothing(w, t, k, d);
      SumZero(FoldedBy(w, t, k));
    }
  }

  /** A node records the arrival of a transfer only when its log holds the dispatch. Then a receipt
      comes from the destination of an accepted transfer or from the source itself: stock is lost
      only through a source that receives its own transfer. */
  lemma ReceiptIssuers(w: World, d: EventId, r: EventId)
    requires Halves(w, d, r) && w.store.journal.events[d] in LogOf(w.store, r.node)
    ensures Lands(w, d, r) <==> r.node != w.store.journal.events[d].body.source
  {
    assert d in w.store.decisions;
    assert IssuedAt(d.node, w.store.journal.events[d].body);
    if r.node != d.node { HeldBy(w, d, r.node); }
  }

  /** Conservation, in every run: once every event of a transfer is decided and the nodes hold what
      is queued for them, what the transfer and its compensations have changed on the shelves of
      all nodes, together with what central counts as on the truck, comes to nothing if and only
      if the transfer is in order; otherwise stock is lost, never gained. */
  lemma StockIsConservedIff(r: seq<World>, i: nat, t: string, d: EventId, k: Key, logs: map<NodeId, seq<Envelope>>, rests: map<NodeId, seq<Envelope>>)
    requires Run(r) && i < |r| && Issued(r[i].store.journal.events) && TransferDecided(r[i], t)
    requires d in r[i].store.journal.events && Dispatches(r[i].store.journal.events[d].body, t)
    requires Network(r[i], logs, rests, TransferEvents(r[i].store.journal.events, t))
    ensures d in r[i].verdicts
    ensures var balance := Sum(Changes(logs, rests, Shelves(k))) + OnTruck(r[i].store.books, t, k);
            balance <= 0.0 && (balance == 0.0 <==> InOrder(r[i], t, d, k))
  {
    hide Inv, Step, Init, Issued, Sum, Changes, OnTruck, Lost, InOrder, TransferEvents, LogOf, Lists;
    RunKeepsInv(r, i);
    assert Concluded(r[i], t, d);
    TransferBalance(r[i], t, d, k, logs, rests);
    NothingLostIff(r[i], t, d, k);
  }

  // ---------------------------------------------------------------- one event at its own node

  /** The log of the node that issued c, and the same without c and the answers to it. */
  ghost predicate WithAndWithout(w: World, c: EventId, es: seq<Envelope>, fs: seq<Envelope>)
  {
    Lists(es, LogOf(w.store, c.node)) && Lists(fs, LogOf(w.store, c.node) - Groups(w.store.journal.events, {c}))
  }

  lemma OneNode(w: World, c: EventId, es: seq<Envelope>, fs: seq<Envelope>)
    requires c.node != CENTRAL_NODE && WithAndWithout(w, c, es, fs)
    ensures Network(w, map[c.node := es], map[c.node := fs], {c})
  {
    hide LogOf, Groups, Lists;
  }

  lemma ChangeIsOutcome(w: World, c: EventId, es: seq<Envelope>, fs: seq<Envelope>, g: Gauge)
    requires Inv(w) && Issued(w.store.journal.events) && Decided(w, {c}) && WithAndWithout(w, c, es, fs)
    requires Separable(c.node, LogOf(w.store, c.node), Groups(w.store.journal.events, {c}))
    ensures Reading(Fold(c.node, es).stock, g) - Reading(Fold(c.node, fs).stock, g) == Outcome(w, {c.node}, c, g)
  {
    hide Inv, Issued, Sum, LogOf, Groups, Reading, Fold, Outcome, Separable, Network, WithAndWithout, Conservation.Keyed, WellFormed;
    var logs, rests := map[c.node := es], map[c.node := fs];
    assert logs.Keys == {c.node} && c in w.store.decisions;
    CauseIsPlain(w, c);
    OneNode(w, c, es, fs);
    assert AllSeparable(w, {c.node}, Groups(w.store.journal.events, {c}));
    ChangesAreOutcomes(w, logs, rests, {c}, g);
    SumOne(Changes(logs, rests, g), c.node);
    SumOne(Outcomes(w, {c.node}, {c}, g), c);
  }

  /** Taking away an event other than a dispatch, or a dispatch headed elsewhere, changes nothing
      about the rest of the log. */
  lemma OneSeparates(w: World, n: NodeId, c: EventId)
    requires Inv(w) && c in w.store.decisions && c in w.store.journal.events
    requires w.store.journal.events[c].body.TransferDispatched? ==> w.store.journal.events[c].body.destination != n
    ensures Separable(n, LogOf(w.store, n), Groups(w.store.journal.events, {c}))
  {
    hide Inv, LogOf, Groups;
    var events := w.store.journal.events;
    CauseIsPlain(w, c);
    var log, part := LogOf(w.store, n), Groups(events, {c});
    forall e | e in log - part
      ensures MovesIn(n, log - part, e.body) == MovesIn(n, log, e.body)
    {
      if x :| e.body.TransferReceived? && x in log && Dispatches(x.body, e.body.transfer) && x.body.destination == n {
        HeldIff(w, n, x);
        GroupsHas(events, {c}, x);
        CentralNeverDispatches(w, x);
      }
    }
  }

  lemma BalanceChanges(w: World, c: EventId, es: seq<Envelope>, fs: seq<Envelope>, k: StockKey)
    requires Inv(w) && Issued(w.store.journal.events) && Decided(w, {c}) && WithAndWithout(w, c, es, fs)
    requires w.store.journal.events[c].body.TransferDispatched? ==> w.store.journal.events[c].body.destination != c.node
    ensures OnHand(Fold(c.node, es).stock, k) == OnHand(Fold(c.node, fs).stock, k) + Outcome(w, {c.node}, c, Balance(k))
  {
    hide Inv, Issued, LogOf, Groups, Fold, Reading, Outcome, Separable, WithAndWithout;
    assert c in w.store.decisions;
    OneSeparates(w, c.node, c);
    ChangeIsOutcome(w, c, es, fs, Balance(k));
    ReadingOne(Fold(c.node, es).stock, k);
    ReadingOne(Fold(c.node, fs).stock, k);
  }

  /** A goods receipt and its compensations leave on the shelf exactly what central recorded of it:
      fold the node's log with them and without them, at every stock key. */
  lemma ShelfMatchesRecordedReceipt(w: World, c: EventId, es: seq<Envelope>, fs: seq<Envelope>, k: StockKey)
    requires Inv(w) && Issued(w.store.journal.events) && Decided(w, {c}) && WithAndWithout(w, c, es, fs)
    requires w.store.journal.events[c].body.GoodsReceived?
    ensures OnHand(Fold(c.node, es).stock, k)
         == OnHand(Fold(c.node, fs).stock, k) + NetOf(w.store.journal.events[c].body.move.(qty := RecordedQty(w.store.books.receipts, c)), k)
  {
    hide Inv, Issued, Fold, Outcome, RecordedQty, WithAndWithout;
    BalanceChanges(w, c, es, fs, k);
    GoodsOutcome(w, {c.node}, c, Balance(k));
    OneMove(w.store.journal.events[c].body.move.(qty := RecordedQty(w.store.books.receipts, c)), k);
  }

  lemma OneMove(m: Movement, k: StockKey)
    ensures Effect([m], Balance(k)) == NetOf(m, k)
  {
  }

  lemma {:induction false} EffectIsNet(ms: seq<Movement>, k: StockKey)
    ensures Effect(ms, Balance(k)) == Net(ms, k)
  {
    if ms != [] { EffectIsNet(ms[..|ms| - 1], k); }
  }

  /** A transfer receipt and its compensations, at the node that issued it: if the transfer was
      accepted and is headed there, they leave on the shelf exactly what central folded into the
      dispatch, line by line; otherwise the lines never moved, and the shelf is short of them. */
  lemma ShelfMatchesFoldedReceipt(w: World, d: EventId, c: EventId, es: seq<Envelope>, fs: seq<Envelope>, k: StockKey)
    requires Halves(w, d, c) && WithAndWithout(w, c, es, fs) && AllLive(w.store.books.refs, w.store.journal.events[c].body.lines)
    ensures var lines := w.store.journal.events[c].body.lines;
            OnHand(Fold(c.node, es).stock, k)
            == OnHand(Fold(c.node, fs).stock, k) + Net(Folded(w.store.books, c, lines), k) - if Lands(w, d, c) then 0.0 else Net(lines, k)
  {
    hide Inv, Issued, Fold, Outcome, WithAndWithout, Effect, Net, Folded, AllLive, Lands;
    BalanceChanges(w, c, es, fs, k);
    ReceiptOutcome(w, {c.node}, d, c, Balance(k));
    EffectIsNet(w.store.journal.events[c].body.lines, k);
    EffectIsNet(Folded(w.store.books, c, w.store.journal.events[c].body.lines), k);
  }

  /** A refused dispatch and its compensations leave every balance of the source as if it had never
      been; an accepted one takes its lines off. */
  lemma DispatchAtItsSource(w: World, d: EventId, es: seq<Envelope>, fs: seq<Envelope>, k: StockKey)
    requires Inv(w) && Issued(w.store.journal.events) && Decided(w, {d}) && WithAndWithout(w, d, es, fs)
    requires w.store.journal.events[d].body.TransferDispatched? && AllLive(w.store.books.refs, w.store.journal.events[d].body.lines)
    ensures OnHand(Fold(d.node, es).stock, k)
         == OnHand(Fold(d.node, fs).stock, k) + if w.verdicts[d].None? then Net(w.store.journal.events[d].body.lines, k) else 0.0
  {
    hide Inv, Fold, Outcome, WithAndWithout, Effect, Net, AllLive;
    assert IssuedAt(d.node, w.store.journal.events[d].body);
    BalanceChanges(w, d, es, fs, k);
    DispatchOutcome(w, {d.node}, d, Balance(k));
    EffectIsNet(w.store.journal.events[d].body.lines, k);
  }

  // ---------------------------------------------------------------- purchase orders

  ghost function OrderEvents(events: Envelopes, po: string, sku: string): set<EventId>
  {
    set id | id in events && Against(events[id].body, po, sku)
  }

  lemma OrderSeparates(w: World, nodes: set<NodeId>, po: string, sku: string)
    requires Inv(w)
    ensures AllSeparable(w, nodes, Groups(w.store.journal.events, OrderEvents(w.store.journal.events, po, sku)))
  {
    var events := w.store.journal.events;
    assert Conservation.Keyed(events);
    hide LogOf, Groups, Inv;
    var part := Groups(events, OrderEvents(events, po, sku));
    forall n, e | n in nodes && e in LogOf(w.store, n) - part
      ensures MovesIn(n, LogOf(w.store, n) - part, e.body) == MovesIn(n, LogOf(w.store, n), e.body)
    {
      if x :| e.body.TransferReceived? && x in LogOf(w.store, n) && Dispatches(x.body, e.body.transfer) && x.body.destination == n {
        HeldIff(w, n, x);
        GroupsHas(events, OrderEvents(events, po, sku), x);
        CentralNeverDispatches(w, x);
      }
    }
  }

  lemma OrderOutcome(w: World, nodes: set<NodeId>, c: EventId, po: string, sku: string)
    requires Inv(w) && Issued(w.store.journal.events) && Decided(w, {c}) && c.node in nodes && Against(w.store.journal.events[c].body, po, sku)
    ensures Outcome(w, nodes, c, Item(sku)) == RecordedQty(w.store.books.receipts, c)
  {
    assert IssuedAt(c.node, w.store.journal.events[c].body);
    hide Inv, Issued, Outcome;
    GoodsOutcome(w, nodes, c, Item(sku));
  }

  /** In every run, once the receipts against an order line are decided and the nodes hold what is
      queued for them: what the receipts and their compensations have brought onto the shelves of
      all nodes is what central has recorded against the line, hence no more than was ordered. */
  lemma NetInflowIsOnShelves(r: seq<World>, i: nat, po: string, sku: string, logs: map<NodeId, seq<Envelope>>, rests: map<NodeId, seq<Envelope>>)
    requires Run(r) && i < |r| && Issued(r[i].store.journal.events) && Decided(r[i], OrderEvents(r[i].store.journal.events, po, sku))
    requires Network(r[i], logs, rests, OrderEvents(r[i].store.journal.events, po, sku))
    ensures var b := r[i].store.books;
            && Sum(Changes(logs, rests, Item(sku))) == PoSum(b.receipts, po, sku)
            && ((po, sku) in b.refs.orders ==> Sum(Changes(logs, rests, Item(sku))) <= b.refs.orders[(po, sku)])
  {
    hide Inv, Step, Init, Issued, Sum, Changes, Outcome, LogOf, Lists, Groups, AllSeparable, PoSum, RecordedQty, Against;
    var w := r[i];
    RunKeepsInv(r, i);
    var cs := OrderEvents(w.store.journal.events, po, sku);
    OrderSeparates(w, logs.Keys, po, sku);
    ChangesAreOutcomes(w, logs, rests, cs, Item(sku));
    var m := Outcomes(w, logs.Keys, cs, Item(sku));
    forall c | c in cs
      ensures m[c] == RecordedQty(w.store.books.receipts, c)
    {
      OrderOutcome(w, logs.Keys, c, po, sku);
    }
    OrderSum(w, po, sku, m);
    OrdersAreNeverExceeded(r, i, po, sku);
  }

  lemma OrderSum(w: World, po: string, sku: string, m: map<EventId, real>)
    requires Inv(w) && m.Keys == OrderEvents(w.store.journal.events, po, sku)
    requires forall c :: c in m ==> m[c] == RecordedQty(w.store.books.receipts, c)
    ensures Sum(m) == PoSum(w.store.books.receipts, po, sku)
  {
    hide TransitOk, VerdictsOk, JournalOk, DecisionsOk, OutboxOk, BusyOk, FanOk, Judge, PoSum, OrdersKept, NotesUnique, Sum;
    var b, events := w.store.books, w.store.journal.events;
    forall c | c in b.receipts
      ensures c in events && events[c].body.GoodsReceived? && b.receipts[c].po == events[c].body.po && b.receipts[c].sku == events[c].body.move.sku
    {
      assert ReceiptOk(events, b, c);
    }
    PoSumIsSum(b.receipts, po, sku, m);
  }
}
