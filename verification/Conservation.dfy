/** What central's decisions do to the shelves. Every node folds its own log; once compensations are
    in, what the folds of all nodes hold is compared with what they would hold had some events, and
    the answers to them, never been. Stock is conserved over a transfer exactly when its receipts
    come from where it is headed.
 */
module Conservation {
  import opened Stamps
  import opened Events
  import opened Warehouse
  import opened Central
  import opened ArbiterRuns
  import opened ArbiterAnswers
  import opened ArbiterSafety
  import opened Sums
  import opened NodeState
  import opened Shelves
  import opened Compensation

  // ---------------------------------------------------------------- what nodes hold

  /** The log of a node that has pushed all its events and ingested all that is queued for it. */
  ghost function LogOf(s: Store, n: NodeId): set<Envelope>
  {
    (set id | id in s.journal.events && id.node == n :: s.journal.events[id])
    + (set i | 0 <= i < |QueueOf(s.outbox, n)| :: QueueOf(s.outbox, n)[i].env)
  }

  /** Every event is one the commands of its node issue. */
  ghost predicate Issued(events: Envelopes)
  {
    forall id :: id in events ==> IssuedAt(id.node, events[id].body)
  }

  lemma HeldIff(w: World, n: NodeId, e: Envelope)
    requires Inv(w)
    ensures e in LogOf(w.store, n) <==>
              e.id in w.store.journal.events && w.store.journal.events[e.id] == e && (e.id.node == n || (n, e.id) in w.store.outbox.enqueued)
  {
    hide ReceiptsOk, TransitOk, VerdictsOk, JournalOk, DecisionsOk, FanOk, BusyOk;
    var o := w.store.outbox;
    if (n, e.id) in o.enqueued {
      assert InQueue(o, n, e.id);
      var i :| 0 <= i < |QueueOf(o, n)| && QueueOf(o, n)[i].env.id == e.id;
    }
    forall i | 0 <= i < |QueueOf(o, n)| && QueueOf(o, n)[i].env == e
      ensures (n, e.id) in o.enqueued
    {
      assert InQueue(o, n, e.id);
    }
  }

  lemma LogsAreSane(w: World, n: NodeId)
    requires Inv(w) && Issued(w.store.journal.events)
    ensures SaneLog(LogOf(w.store, n))
  {
    hide LogOf, ReceiptsOk, TransitOk, VerdictsOk, JournalOk, DecisionsOk, FanOk, BusyOk, OutboxOk;
    forall e | e in LogOf(w.store, n)
      ensures e.id in w.store.journal.events && w.store.journal.events[e.id] == e
    {
      HeldIff(w, n, e);
    }
  }

  // ---------------------------------------------------------------- events and the answers to them

  /** The events of cs, and every compensation that answers one of them. */
  ghost function Groups(events: Envelopes, cs: set<EventId>): set<Envelope>
  {
    set id | id in events && (id in cs || (events[id].causation.Some? && events[id].causation.value in cs)) :: events[id]
  }

  /** What e does to a reading at n, if n holds it. */
  ghost function AtNode(w: World, g: Gauge, n: NodeId, e: Envelope): real
  {
    if e in LogOf(w.store, n) then Effect(MovesIn(n, LogOf(w.store, n), e.body), g) else 0.0
  }

  ghost function Contribution(w: World, g: Gauge): (NodeId, Envelope) -> real
  {
    (n, e) => AtNode(w, g, n, e)
  }

  /** Node by node the log, and the log without the events of cs and the answers to them; the
      nodes include every one that issued such an event. */
  ghost predicate Network(w: World, logs: map<NodeId, seq<Envelope>>, rests: map<NodeId, seq<Envelope>>, cs: set<EventId>)
  {
    && CENTRAL_NODE !in logs && logs.Keys == rests.Keys && (forall c :: c in cs ==> c.node in logs)
    && forall n :: n in logs ==>
         && Lists(logs[n], LogOf(w.store, n))
         && Lists(rests[n], LogOf(w.store, n) - Groups(w.store.journal.events, cs))
  }

  /** What the events of cs and the answers to them have changed in the reading of each node. */
  ghost function Changes(logs: map<NodeId, seq<Envelope>>, rests: map<NodeId, seq<Envelope>>, g: Gauge): map<NodeId, real>
  {
    map n | n in logs && n in rests :: Reading(Fold(n, logs[n]).stock, g) - Reading(Fold(n, rests[n]).stock, g)
  }

  ghost predicate AllSeparable(w: World, nodes: set<NodeId>, part: set<Envelope>)
  {
    forall n :: n in nodes ==> Separable(n, LogOf(w.store, n), part)
  }

  lemma RowIsPart(w: World, g: Gauge, n: NodeId, part: set<Envelope>)
    ensures Sum(RowOf(n, part, Contribution(w, g))) == Sum(Effects(n, LogOf(w.store, n), LogOf(w.store, n) * part, g))
  {
    hide Sum, LogOf, MovesIn, Effect;
    var log, row := LogOf(w.store, n), RowOf(n, part, Contribution(w, g));
    SumSplit(row, log);
    assert (map e | e in row && e in log :: row[e]) == Effects(n, log, log * part, g);
    SumZero(row - log);
  }

  lemma ChangesAreColumns(w: World, logs: map<NodeId, seq<Envelope>>, rests: map<NodeId, seq<Envelope>>, cs: set<EventId>, g: Gauge)
    requires Inv(w) && Issued(w.store.journal.events) && Network(w, logs, rests, cs)
    requires AllSeparable(w, logs.Keys, Groups(w.store.journal.events, cs))
    ensures Sum(Changes(logs, rests, g)) == Sum(ColumnSums(logs.Keys, Groups(w.store.journal.events, cs), Contribution(w, g)))
  {
    hide Inv, Issued, Sum, LogOf, Groups, Separable, Lists, Contribution, RowOf, Reading, Fold, Effects;
    var part, nodes, f := Groups(w.store.journal.events, cs), logs.Keys, Contribution(w, g);
    forall n | n in logs
      ensures Changes(logs, rests, g)[n] == Sum(RowOf(n, part, f))
    {
      LogsAreSane(w, n);
      PartContributes(n, logs[n], rests[n], LogOf(w.store, n), part, g);
      RowIsPart(w, g, n, part);
    }
    assert Changes(logs, rests, g) == RowSums(nodes, part, f);
    SumSwap(nodes, part, f);
  }

  // ---------------------------------------------------------------- one event and its answers

  /** What an event of a node and the answers to it do to the readings of all nodes. */
  ghost function Outcome(w: World, nodes: set<NodeId>, c: EventId, g: Gauge): real
    requires c in w.store.journal.events && c in w.verdicts
  {
    Sum(ColumnOf(nodes, w.store.journal.events[c], Contribution(w, g))) + Effect(DraftMoves(DraftsOf(w.verdicts[c])), g)
  }

  function MoveOf(body: Payload): seq<Movement>
  {
    if body.StockAdjusted? then [body.move] else []
  }

  lemma {:induction false} ListSum(h: map<Envelope, real>, comps: seq<Envelope>, drafts: seq<Draft>, g: Gauge)
    requires |comps| == |drafts| && (forall e :: e in h <==> e in comps)
    requires forall i, j :: 0 <= i < j < |comps| ==> comps[i] != comps[j]
    requires forall i :: 0 <= i < |comps| ==> h[comps[i]] == Effect(MoveOf(drafts[i].body), g)
    ensures Sum(h) == Effect(DraftMoves(drafts), g)
    decreases |comps|
  {
    hide Effect, Sum, DraftMoves, MoveOf;
    if comps == [] {
      NoDrafts(g);
      SumZero(h);
    } else {
      var n := |comps| - 1;
      var e, init := comps[n], comps[..n];
      assert comps == init + [e] && e !in init;
      assert forall i :: 0 <= i < n ==> init[i] == comps[i] && drafts[..n][i] == drafts[i];
      ListSum(h - {e}, init, drafts[..n], g);
      SumAt(h, e);
      LastDraft(drafts);
      EffectConcat(DraftMoves(drafts[..n]), MoveOf(drafts[n].body), g);
    }
  }

  lemma LastDraft(drafts: seq<Draft>)
    requires drafts != []
    ensures DraftMoves(drafts) == DraftMoves(drafts[..|drafts| - 1]) + MoveOf(drafts[|drafts| - 1].body)
  {
  }

  lemma AnswerHeld(w: World, c: EventId, x: Envelope, n: NodeId)
    requires Inv(w) && c in w.store.decisions && x in Compensations(w.store.journal.events, c) && n != CENTRAL_NODE
    ensures x in LogOf(w.store, n) <==> n == c.node
    ensures x.body.StockAdjusted? || x.body.ReceiptLineRecorded?
  {
    HeldIff(w, n, x);
    hide LogOf, ReceiptsOk, TransitOk, VerdictsOk, FanOk, BusyOk, AnswersOk;
    assert x.id.node == CENTRAL_NODE;
    assert DecidedOk(w.store, w.verdicts, w.answers, c);
    if (n, x.id) in w.store.outbox.enqueued {
      assert InQueue(w.store.outbox, n, x.id);
    }
  }

  lemma AnswerColumn(w: World, nodes: set<NodeId>, c: EventId, x: Envelope, g: Gauge)
    requires Inv(w) && c in w.store.decisions && x in Compensations(w.store.journal.events, c)
    requires c.node in nodes && CENTRAL_NODE !in nodes
    ensures Sum(ColumnOf(nodes, x, Contribution(w, g))) == Effect(MoveOf(x.body), g)
  {
    hide Inv, LogOf, Sum, Effect, Compensations;
    var column := ColumnOf(nodes, x, Contribution(w, g));
    forall n | n in nodes
      ensures x in LogOf(w.store, n) <==> n == c.node
      ensures x.body.StockAdjusted? || x.body.ReceiptLineRecorded?
    {
      AnswerHeld(w, c, x, n);
    }
    SumOne(column, c.node);
  }

  lemma AnswersSum(w: World, nodes: set<NodeId>, c: EventId, g: Gauge)
    requires Inv(w) && c in w.store.decisions && c.node in nodes && CENTRAL_NODE !in nodes
    ensures c in w.verdicts
    ensures Sum(ColumnSums(nodes, Compensations(w.store.journal.events, c), Contribution(w, g))) == Effect(DraftMoves(DraftsOf(w.verdicts[c])), g)
  {
    hide Inv, Sum, Effect, ColumnOf, Contribution, QueuedOnce, Compensations;
    DecidedEventIsAnsweredOnce(w, c);
    var comps := Compensations(w.store.journal.events, c);
    var h := ColumnSums(nodes, comps, Contribution(w, g));
    if w.verdicts[c].None? {
      NoDrafts(g);
      SumZero(h);
    } else {
      var listed, drafts := w.answers[c], w.verdicts[c].value.events;
      forall i | 0 <= i < |listed|
        ensures listed[i] in comps && h[listed[i]] == Effect(MoveOf(drafts[i].body), g)
      {
        assert Answered(w.store.journal.events, c, drafts[i], listed[i]);
        AnswerColumn(w, nodes, c, listed[i], g);
      }
      ListSum(h, listed, drafts, g);
    }
  }

  lemma CauseSum(w: World, nodes: set<NodeId>, c: EventId, g: Gauge)
    requires Inv(w) && c in w.store.decisions && c.node in nodes && CENTRAL_NODE !in nodes
    ensures c in w.verdicts && c in w.store.journal.events
    ensures Sum(ColumnSums(nodes, Groups(w.store.journal.events, {c}), Contribution(w, g))) == Outcome(w, nodes, c, g)
  {
    var events := w.store.journal.events;
    CauseIsPlain(w, c);
    hide Inv, Sum, Effect, ColumnOf, ColumnSums, Contribution, Groups, Compensations;
    GroupIs(events, c);
    AnswersSum(w, nodes, c, g);
    ColumnsMore(nodes, Compensations(events, c), Contribution(w, g), events[c]);
  }

  lemma CauseIsPlain(w: World, c: EventId)
    requires Inv(w) && c in w.store.decisions
    ensures c in w.verdicts && c in w.store.journal.events && c.node != CENTRAL_NODE
    ensures w.store.journal.events[c].causation.None? && Keyed(w.store.journal.events) && WellFormed(w.store.journal.events[c].body)
  {
    hide ReceiptsOk, TransitOk, FanOk, BusyOk, JournalOk, OutboxOk, VerdictStands;
    assert DecidedOk(w.store, w.verdicts, w.answers, c);
    KnownVerdict(w, c);
  }

  ghost predicate Decided(w: World, cs: set<EventId>)
  {
    forall c :: c in cs ==> c in w.store.decisions && c in w.verdicts && c in w.store.journal.events
  }

  ghost function Outcomes(w: World, nodes: set<NodeId>, cs: set<EventId>, g: Gauge): map<EventId, real>
    requires Decided(w, cs)
  {
    map c | c in cs :: Outcome(w, nodes, c, g)
  }

  ghost predicate Keyed(events: Envelopes)
  {
    forall id :: id in events ==> events[id].id == id
  }

  lemma GroupsHas(events: Envelopes, cs: set<EventId>, e: Envelope)
    requires Keyed(events)
    ensures e in Groups(events, cs) <==>
              && e.id in events && events[e.id] == e
              && (e.id in cs || (e.causation.Some? && e.causation.value in cs))
  {
  }

  lemma GroupsSplit(events: Envelopes, cs: set<EventId>, c: EventId)
    requires Keyed(events) && c in cs && forall d :: d in cs ==> d in events && events[d].causation.None?
    ensures Groups(events, cs) - Groups(events, {c}) == Groups(events, cs - {c})
    ensures Groups(events, {c}) <= Groups(events, cs)
  {
    hide Groups;
    forall e
      ensures e in Groups(events, cs) && e !in Groups(events, {c}) <==> e in Groups(events, cs - {c})
      ensures e in Groups(events, {c}) ==> e in Groups(events, cs)
    {
      GroupsHas(events, cs, e);
      GroupsHas(events, {c}, e);
      GroupsHas(events, cs - {c}, e);
    }
  }

  lemma GroupIs(events: Envelopes, c: EventId)
    requires Keyed(events) && c in events && events[c].causation.None?
    ensures Groups(events, {c}) == {events[c]} + Compensations(events, c) && events[c] !in Compensations(events, c)
  {
    hide Groups;
    forall e
      ensures e in Groups(events, {c}) <==> e == events[c] || e in Compensations(events, c)
    {
      GroupsHas(events, {c}, e);
    }
  }

  lemma {:induction false} CausesSum(w: World, nodes: set<NodeId>, cs: set<EventId>, g: Gauge)
    requires Inv(w) && Decided(w, cs) && CENTRAL_NODE !in nodes && forall c :: c in cs ==> c.node in nodes
    ensures Sum(ColumnSums(nodes, Groups(w.store.journal.events, cs), Contribution(w, g))) == Sum(Outcomes(w, nodes, cs, g))
    decreases |cs|
  {
    hide Inv, Sum, ColumnOf, Contribution, Outcome, Groups;
    var f, events := Contribution(w, g), w.store.journal.events;
    var all := ColumnSums(nodes, Groups(events, cs), f);
    if cs == {} {
      NoGroups(events);
      SumZero(all);
      SumZero(Outcomes(w, nodes, cs, g));
    } else {
      var c :| c in cs;
      forall d | d in cs
        ensures events[d].causation.None? && Keyed(events)
      {
        CauseIsPlain(w, d);
      }
      GroupsSplit(events, cs, c);
      SumSplit(all, Groups(events, {c}));
      assert (map e | e in all && e in Groups(events, {c}) :: all[e]) == ColumnSums(nodes, Groups(events, {c}), f);
      assert all - Groups(events, {c}) == ColumnSums(nodes, Groups(events, cs - {c}), f);
      CauseSum(w, nodes, c, g);
      CausesSum(w, nodes, cs - {c}, g);
      SumAt(Outcomes(w, nodes, cs, g), c);
      assert Outcomes(w, nodes, cs, g) - {c} == Outcomes(w, nodes, cs - {c}, g);
    }
  }

  lemma NoGroups(events: Envelopes)
    ensures Groups(events, {}) == {}
  {
  }

  /** What decided events and the answers to them have changed on the shelves of all nodes is the sum
      of their outcomes. */
  lemma ChangesAreOutcomes(w: World, logs: map<NodeId, seq<Envelope>>, rests: map<NodeId, seq<Envelope>>, cs: set<EventId>, g: Gauge)
    requires Inv(w) && Issued(w.store.journal.events) && Decided(w, cs) && Network(w, logs, rests, cs)
    requires AllSeparable(w, logs.Keys, Groups(w.store.journal.events, cs))
    ensures Sum(Changes(logs, rests, g)) == Sum(Outcomes(w, logs.Keys, cs, g))
  {
    hide Inv, Issued, Sum, Changes, Outcomes, ColumnSums, Groups, LogOf, Lists;
    ChangesAreColumns(w, logs, rests, cs, g);
    CausesSum(w, logs.Keys, cs, g);
  }
}
