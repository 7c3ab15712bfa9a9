/** Every run of arbitration: attempts one after another, each made of store calls, with a crash
    possible between any two of them and other events arbitrated before the retry.
 */
module ArbiterRuns {
  import opened Stamps
  import opened Clock
  import opened Events
  import opened Warehouse
  import opened Central
  import opened Arbiter

  datatype Phase =
    | Recording(done: nat)
    | Recorded
    | FannedOut
    | Emitted(comps: seq<Envelope>)
    | Queued(comps: seq<Envelope>)

  /** The attempt in progress: what is being arbitrated, what the validators said, how far it is. */
  datatype Attempt = Attempt(env: Envelope, rej: Option<Rejection>, phase: Phase)

  type Verdicts = map<EventId, Option<Rejection>>

  type Answers = map<EventId, seq<Envelope>>

  /** The store, and two facts about the past: what the first completed record of each event went
      by, and the compensations emitted for it. */
  datatype World = World(store: Store, verdicts: Verdicts, answers: Answers, busy: Option<Attempt>)

  // ---------------------------------------------------------------- what central is sent

  ghost predicate WellFormed(body: Payload)
  {
    match body
    case GoodsReceived(_, _, _, move) => move.qty > 0.0
    case TransferDispatched(_, _, _, lines) => Positive(lines) && DistinctKeys(lines)
    case TransferReceived(_, lines) => Positive(lines) && DistinctKeys(lines)
    case _ => true
  }

  /** One dispatch per transfer, and a receipt is arbitrated only after its dispatch was recorded:
      the destination learns of a dispatch through central. */
  ghost predicate Timely(events: Envelopes, verdicts: Verdicts, env: Envelope)
  {
    match env.body
    case TransferDispatched(transfer, _, _, _) =>
      && (forall d :: d in events && Dispatches(events[d].body, transfer) ==> d == env.id)
      && (env.id !in verdicts ==> forall r :: r in events ==> !Receives(events[r].body, transfer))
    case TransferReceived(transfer, _) =>
      forall d :: d in events && Dispatches(events[d].body, transfer) ==> d in verdicts
    case _ => true
  }

  ghost predicate Admissible(events: Envelopes, verdicts: Verdicts, env: Envelope)
  {
    && env.id.node != CENTRAL_NODE && env.causation.None? && WellFormed(env.body)
    && (env.id in events ==> events[env.id] == env)
    && Timely(events, verdicts, env)
  }

  // ---------------------------------------------------------------- steps

  ghost predicate Begin(w: World, w': World, env: Envelope)
  {
    && w.busy.None? && env.id !in w.store.decisions
    && Admissible(w.store.journal.events, w.verdicts, env)
    && w' == w.(store := w.store.(journal := Append(w.store.journal, env)),
                busy := Some(Attempt(env, Judge(w.store.books, env), Recording(0))))
  }

  ghost predicate Busy(w: World, phase: Phase)
  {
    w.busy.Some? && w.busy.value.phase == phase
  }

  function Moved(w: World, phase: Phase): World
    requires w.busy.Some?
  {
    w.(busy := Some(w.busy.value.(phase := phase)))
  }

  ghost predicate Record(w: World, w': World, i: nat)
  {
    && Busy(w, Recording(i))
    && var a := w.busy.value;
    && i < RecordSteps(a.env.body, a.rej)
    && w' == Moved(w, Recording(i + 1)).(store := w.store.(books := RecordStep(w.store.books, a.env, a.rej, i)))
  }

  /** The record is complete. The first time, the verdict it went by is noted. */
  ghost predicate Settle(w: World, w': World)
  {
    && w.busy.Some?
    && var a := w.busy.value;
    && a.phase == Recording(RecordSteps(a.env.body, a.rej))
    && w' == Moved(w, Recorded).(verdicts := if a.env.id in w.verdicts then w.verdicts else w.verdicts[a.env.id := a.rej])
  }

  ghost predicate Fan(w: World, w': World)
  {
    && Busy(w, Recorded)
    && var a := w.busy.value;
    w' == Moved(w, FannedOut).(store := w.store.(outbox := FanOut(w.store.outbox, w.store.books, a.env, a.rej)))
  }

  ghost predicate Accept(w: World, w': World)
  {
    && Busy(w, FannedOut)
    && var a := w.busy.value;
    && a.rej.None?
    && w' == w.(busy := None, store := w.store.(decisions := w.store.decisions[a.env.id := Decision(Accepted, None)]))
  }

  /** No reading central's clock takes while it emits n answers is saturated. */
  ghost predicate ClockRoom(c: Hlc, at: Hlc, now: Int64, n: nat)
  {
    !Saturated(at) && forall i :: 0 <= i < n ==> !Saturated(ClockAfter(c, at, now, i))
  }

  /** No compensations in the log yet: emit them all. */
  ghost predicate Emit(w: World, w': World, now: Int64)
  {
    && Busy(w, FannedOut)
    && var a, j := w.busy.value, w.store.journal;
    && a.rej.Some? && CompensationsOf(j.events, a.env.id, []) && a.env.id in j.events
    && ClockRoom(j.clock, j.events[a.env.id].hlc, now, |a.rej.value.events|)
    && w' == Moved(w, Emitted(Sealed(j, a.rej.value.events, a.env.id, j.events[a.env.id].hlc, now)))
             .(store := w.store.(journal := EmitCentral(j, a.rej.value.events, a.env.id, j.events[a.env.id].hlc, now)),
               answers := w.answers[a.env.id := Sealed(j, a.rej.value.events, a.env.id, j.events[a.env.id].hlc, now)])
  }

  /** An earlier attempt emitted them: replay those. */
  ghost predicate Replay(w: World, w': World, comps: seq<Envelope>)
  {
    && Busy(w, FannedOut)
    && var a := w.busy.value;
    && a.rej.Some? && CompensationsOf(w.store.journal.events, a.env.id, comps)
    && comps != [] && |comps| == |a.rej.value.events|
    && w' == Moved(w, Emitted(comps))
  }

  ghost predicate Queue(w: World, w': World)
  {
    && w.busy.Some?
    && var a := w.busy.value;
    && a.phase.Emitted?
    && w' == Moved(w, Queued(a.phase.comps))
             .(store := w.store.(outbox := Enqueue(w.store.outbox, a.env.id.node, a.phase.comps)))
  }

  ghost predicate Reject(w: World, w': World)
  {
    && w.busy.Some?
    && var a := w.busy.value;
    && a.phase.Queued? && a.rej.Some?
    && var first := if a.phase.comps == [] then None else Some(a.phase.comps[0].id);
    w' == w.(busy := None,
             store := w.store.(decisions := w.store.decisions[a.env.id := Decision(Rejected(a.rej.value.reason), first)]))
  }

  /** A crash, or an error returned to the caller, between any two store calls. */
  ghost predicate Crash(w: World, w': World)
  {
    w' == w.(busy := None)
  }

  ghost predicate Step(w: World, w': World)
  {
    || (exists env :: Begin(w, w', env))
    || (exists i :: Record(w, w', i))
    || Settle(w, w') || Fan(w, w') || Accept(w, w')
    || (exists now :: Emit(w, w', now))
    || (exists comps :: Replay(w, w', comps))
    || Queue(w, w') || Reject(w, w') || Crash(w, w')
  }

  /** Reference data is loaded first and then fixed; orders are not negative. */
  ghost predicate Init(w: World)
  {
    && w.busy.None? && w.verdicts == map[] && w.answers == map[]
    && w.store.journal.events == map[] && w.store.outbox == Outbox(map[], 0, {}) && w.store.decisions == map[]
    && w.store.books == Books(w.store.books.refs, map[], map[], map[])
    && forall o :: o in w.store.books.refs.orders ==> w.store.books.refs.orders[o] >= 0.0
  }

  ghost predicate Run(r: seq<World>)
  {
    && r != [] && Init(r[0])
    && forall i, j :: 0 <= i < j < |r| && j == i + 1 ==> Step(r[i], r[j])
  }

  // ---------------------------------------------------------------- the invariant of the books

  ghost predicate EventsOk(events: Envelopes)
  {
    && (forall id :: id in events ==> events[id].id == id)
    && (forall id :: id in events && id.node != CENTRAL_NODE ==> events[id].causation.None? && WellFormed(events[id].body))
    && (forall id :: id in events && id.node == CENTRAL_NODE ==> events[id].body.StockAdjusted? || events[id].body.ReceiptLineRecorded?)
    && (forall d, e, t :: d in events && e in events && Dispatches(events[d].body, t) && Dispatches(events[e].body, t) ==> d == e)
  }

  /** The quantity of the line with key k, zero when there is none. */
  function QtyAt(lines: seq<Movement>, k: Key): real
  {
    if lines == [] then 0.0
    else if KeyOf(lines[|lines| - 1]) == k then lines[|lines| - 1].qty
    else QtyAt(lines[..|lines| - 1], k)
  }

  /** A recorded receipt keeps what the event claimed, less what takes its order past its limit. */
  ghost predicate ReceiptOk(events: Envelopes, b: Books, id: EventId)
    requires id in b.receipts
  {
    var f := b.receipts[id];
    && id in events && id.node != CENTRAL_NODE && events[id].body.GoodsReceived?
    && var g := events[id].body;
    && f.node == id.node && f.note == g.note && f.po == g.po && f.sku == g.move.sku
    && 0.0 <= f.qty <= g.move.qty && Live(b.refs, f.sku)
    && (if (f.po, f.sku) in b.refs.orders
        then f.qty < g.move.qty ==> PoSum(b.receipts, f.po, f.sku) == b.refs.orders[(f.po, f.sku)]
        else f.qty == g.move.qty)
  }

  ghost predicate OrdersKept(b: Books)
  {
    forall o :: o in b.refs.orders ==> 0.0 <= b.refs.orders[o] && PoSum(b.receipts, o.0, o.1) <= b.refs.orders[o]
  }

  /** At most one receipt is recorded per delivery note and SKU. */
  ghost predicate NotesUnique(b: Books)
  {
    forall c, d :: c in b.receipts && d in b.receipts && b.receipts[c].note == b.receipts[d].note && b.receipts[c].sku == b.receipts[d].sku ==> c == d
  }

  ghost predicate ReceiptsOk(events: Envelopes, b: Books)
  {
    && (forall id :: id in b.receipts ==> ReceiptOk(events, b, id))
    && OrdersKept(b) && NotesUnique(b)
  }

  ghost predicate Backs(events: Envelopes, d: EventId, transfer: string, k: Key, row: Row)
  {
    && d in events && Dispatches(events[d].body, transfer)
    && row.dispatched == QtyAt(events[d].body.lines, k)
    && row.source == events[d].body.source && row.destination == events[d].body.destination
  }

  ghost function ReceiptsOf(events: Envelopes, transfer: string): set<EventId>
  {
    set id | id in events && Receives(events[id].body, transfer)
  }

  ghost function FoldedSum(folded: map<(EventId, Key), real>, ids: set<EventId>, k: Key): real
  {
    if ids == {} then 0.0
    else
      var id :| id in ids;
      Own(folded, id, k) + FoldedSum(folded, ids - {id}, k)
  }

  /** The dispatch of the transfer was one central refuses. */
  ghost predicate RefusedDispatch(events: Envelopes, refs: Refs, transfer: string)
  {
    exists d :: d in events && Dispatches(events[d].body, transfer)
                && (UnknownEvents(refs, events[d].body.lines) != [] || Refuses(refs, events[d].body.destination, events[d].body.lines))
  }

  /** No more has been received than was dispatched, and what has been received is the sum of what
      the receipts folded in. */
  ghost predicate RowOk(events: Envelopes, b: Books, transfer: string, k: Key)
    requires (transfer, k) in b.transit
  {
    var row := b.transit[(transfer, k)];
    && 0.0 <= row.received <= row.dispatched
    && (exists d :: Backs(events, d, transfer, k, row))
    && row.received == FoldedSum(b.folded, ReceiptsOf(events, transfer), k)
    && (row.failed ==> RefusedDispatch(events, b.refs, transfer))
  }

  ghost predicate FoldOk(events: Envelopes, b: Books, id: EventId, k: Key)
    requires (id, k) in b.folded
  {
    && id in events && events[id].body.TransferReceived?
    && var g := events[id].body;
    && 0.0 < b.folded[(id, k)] <= QtyAt(g.lines, k) && (g.transfer, k) in b.transit
    && var row := b.transit[(g.transfer, k)];
    b.folded[(id, k)] < QtyAt(g.lines, k) ==> row.received == row.dispatched
  }

  ghost predicate TransitOk(events: Envelopes, b: Books)
  {
    && (forall t, k :: (t, k) in b.transit ==> RowOk(events, b, t, k))
    && (forall id, k :: (id, k) in b.folded ==> FoldOk(events, b, id, k))
  }

  /** Nothing more of this line can be folded: it went in whole, or the dispatch is used up. */
  ghost predicate LineSettled(b: Books, id: EventId, transfer: string, m: Movement)
  {
    (transfer, KeyOf(m)) in b.transit ==>
      || Own(b.folded, id, KeyOf(m)) == m.qty
      || b.transit[(transfer, KeyOf(m))].received == b.transit[(transfer, KeyOf(m))].dispatched
  }

  /** The first n store calls of the record of env have taken effect. */
  ghost predicate RecordedTo(b: Books, env: Envelope, rej: Option<Rejection>, n: nat)
  {
    match env.body
    case GoodsReceived(_, _, _, _) => n > 0 && Counts(rej) ==> env.id in b.receipts
    case TransferDispatched(transfer, _, _, lines) =>
      && (forall i :: 0 <= i < n && i < |lines| ==> (transfer, KeyOf(lines[i])) in b.transit)
      && (n > |lines| ==> forall k :: (transfer, k) in b.transit ==> b.transit[(transfer, k)].failed)
    case TransferReceived(transfer, lines) =>
      forall i :: 0 <= i < n && i < |lines| ==> LineSettled(b, env.id, transfer, lines[i])
    case _ => true
  }

  /** Judging the event again, whenever that is, gives the verdict its record went by. */
  ghost predicate VerdictStands(events: Envelopes, b: Books, verdicts: Verdicts, id: EventId)
    requires id in verdicts
  {
    && id in events && id.node != CENTRAL_NODE
    && RecordedTo(b, events[id], verdicts[id], RecordSteps(events[id].body, verdicts[id]))
    && Judge(b, events[id]) == verdicts[id]
  }

  ghost predicate VerdictsOk(events: Envelopes, b: Books, verdicts: Verdicts)
  {
    forall id :: id in verdicts ==> VerdictStands(events, b, verdicts, id)
  }

  // ---------------------------------------------------------------- the invariant of the answers

  ghost predicate Answered(events: Envelopes, e: EventId, d: Draft, c: Envelope)
  {
    && e in events && c.id in events && events[c.id] == c
    && c.causation == Some(e) && c.body == d.body && c.aggregate == d.aggregate
    && Before(events[e].hlc, c.hlc)
  }

  /** The compensations of e are exactly the drafts of r, in order, each stamped after its cause
      and after the one before. */
  ghost predicate AnswersOk(events: Envelopes, e: EventId, r: Rejection, comps: seq<Envelope>)
  {
    && |comps| == |r.events|
    && (forall i :: 0 <= i < |comps| ==> Answered(events, e, r.events[i], comps[i]))
    && (forall i, j :: 0 <= i < j < |comps| ==> Before(comps[i].hlc, comps[j].hlc))
  }

  ghost predicate JournalOk(j: Journal, verdicts: Verdicts, answers: Answers)
  {
    && (forall e :: e in answers ==> e in verdicts && verdicts[e].Some? && AnswersOk(j.events, e, verdicts[e].value, answers[e]))
    && (forall c :: c in j.events && c.node == CENTRAL_NODE ==> c.seqNo <= j.issued)
    && (forall c :: c in j.events && j.events[c].causation.Some? ==>
          j.events[c].causation.value in answers && j.events[c] in answers[j.events[c].causation.value])
  }

  ghost predicate InQueue(o: Outbox, t: NodeId, id: EventId)
  {
    exists i :: 0 <= i < |QueueOf(o, t)| && QueueOf(o, t)[i].env.id == id
  }

  /** A queue holds an event at most once, under rising positions; a compensation is only ever in
      the queue of the node whose event it answers. */
  ghost predicate OutboxOk(events: Envelopes, o: Outbox)
  {
    && (forall t, i :: 0 <= i < |QueueOf(o, t)| ==>
          var x := QueueOf(o, t)[i];
          && x.ord <= o.nextOrd && x.env.id in events && events[x.env.id] == x.env
          && (x.env.causation.Some? ==> x.env.causation.value.node == t))
    && (forall t, i, j :: 0 <= i < j < |QueueOf(o, t)| ==>
          QueueOf(o, t)[i].ord < QueueOf(o, t)[j].ord && QueueOf(o, t)[i].env.id != QueueOf(o, t)[j].env.id)
    && (forall t, id :: (t, id) in o.enqueued <==> InQueue(o, t, id))
  }

  ghost predicate AllQueued(o: Outbox, t: NodeId, envs: seq<Envelope>)
  {
    forall i :: 0 <= i < |envs| ==> (t, envs[i].id) in o.enqueued
  }

  function DecisionFor(rej: Option<Rejection>, comps: seq<Envelope>): Decision
  {
    if rej.None? then Decision(Accepted, None)
    else Decision(Rejected(rej.value.reason), if comps == [] then None else Some(comps[0].id))
  }

  ghost predicate DecidedOk(s: Store, verdicts: Verdicts, answers: Answers, e: EventId)
    requires e in s.decisions
  {
    && e in verdicts
    && (verdicts[e].None? ==> s.decisions[e] == DecisionFor(None, []))
    && (verdicts[e].Some? ==>
          && e in answers && s.decisions[e] == DecisionFor(verdicts[e], answers[e])
          && AllQueued(s.outbox, e.node, answers[e]))
  }

  ghost predicate DecisionsOk(s: Store, verdicts: Verdicts, answers: Answers)
  {
    forall e :: e in s.decisions ==> DecidedOk(s, verdicts, answers, e)
  }

  // ---------------------------------------------------------------- the invariant of the fan-out

  ghost predicate Grows(events: Envelopes, events': Envelopes)
  {
    forall id :: id in events ==> id in events' && events'[id] == events[id]
  }

  ghost predicate SharesKey(a: seq<Movement>, b: seq<Movement>)
  {
    exists i, j :: 0 <= i < |a| && 0 <= j < |b| && KeyOf(a[i]) == KeyOf(b[j])
  }

  /** Who must learn of an event has been told: the destination of an accepted dispatch, the source
      of a transfer that a receipt received anything of. */
  ghost predicate Told(events: Envelopes, o: Outbox, env: Envelope, rej: Option<Rejection>)
  {
    && (env.body.TransferDispatched? && rej.None? ==> (env.body.destination, env.id) in o.enqueued)
    && (env.body.TransferReceived? ==>
          forall d :: d in events && Dispatches(events[d].body, env.body.transfer) && SharesKey(env.body.lines, events[d].body.lines)
                      ==> (events[d].body.source, env.id) in o.enqueued)
  }

  /** Nobody else is told of a node's event, and nobody of a refused dispatch. */
  ghost predicate Concerns(events: Envelopes, verdicts: Verdicts, t: NodeId, id: EventId)
  {
    && id in events && id in verdicts
    && match events[id].body
       case TransferDispatched(_, _, destination, _) => verdicts[id].None? && t == destination
       case TransferReceived(transfer, _) => exists d :: d in events && Dispatches(events[d].body, transfer) && events[d].body.source == t
       case _ => false
  }

  ghost predicate FanOk(events: Envelopes, o: Outbox, verdicts: Verdicts, decisions: map<EventId, Decision>)
  {
    && (forall t, id :: (t, id) in o.enqueued && id.node != CENTRAL_NODE ==> Concerns(events, verdicts, t, id))
    && (forall e :: e in decisions ==> e in events && e in verdicts && Told(events, o, events[e], verdicts[e]))
  }

  // ---------------------------------------------------------------- the whole invariant

  ghost predicate BooksOk(events: Envelopes, b: Books, verdicts: Verdicts)
  {
    EventsOk(events) && ReceiptsOk(events, b) && TransitOk(events, b) && VerdictsOk(events, b, verdicts)
  }

  ghost predicate PhaseOk(w: World, a: Attempt)
  {
    match a.phase
    case Recording(n) => n <= RecordSteps(a.env.body, a.rej) && RecordedTo(w.store.books, a.env, a.rej, n)
    case Recorded => a.env.id in w.verdicts
    case FannedOut => a.env.id in w.verdicts
    case Emitted(comps) =>
      a.env.id in w.verdicts && a.rej.Some? && a.env.id in w.answers && comps == w.answers[a.env.id]
    case Queued(comps) =>
      && a.env.id in w.verdicts && a.rej.Some? && a.env.id in w.answers && comps == w.answers[a.env.id]
      && AllQueued(w.store.outbox, a.env.id.node, comps)
  }

  /** From the fan-out on, whoever the event concerns has been told. */
  ghost predicate ToldOk(w: World, a: Attempt)
  {
    !a.phase.Recording? && !a.phase.Recorded? ==> Told(w.store.journal.events, w.store.outbox, a.env, a.rej)
  }

  ghost predicate BusyOk(w: World, a: Attempt)
  {
    && Admissible(w.store.journal.events, w.verdicts, a.env)
    && a.env.id in w.store.journal.events && a.env.id !in w.store.decisions
    && Judge(w.store.books, a.env) == a.rej
    && PhaseOk(w, a) && ToldOk(w, a)
  }

  ghost predicate Inv(w: World)
  {
    && BooksOk(w.store.journal.events, w.store.books, w.verdicts)
    && JournalOk(w.store.journal, w.verdicts, w.answers)
    && OutboxOk(w.store.journal.events, w.store.outbox)
    && DecisionsOk(w.store, w.verdicts, w.answers)
    && FanOk(w.store.journal.events, w.store.outbox, w.verdicts, w.store.decisions)
    && (w.busy.Some? ==> BusyOk(w, w.busy.value))
  }
}
