/** Central's store as a value: the replicated events, the downstream queues, the reference data
    only central owns, and the cross-node books arbitration reads and writes.
 */
module Central {
  import opened Stamps
  import opened Events
  import opened Warehouse

  const CENTRAL_NODE: NodeId := "central"

  datatype Fact = Fact(node: NodeId, po: string, note: string, sku: string, qty: real)

  datatype Row = Row(source: NodeId, destination: NodeId, dispatched: real, received: real, failed: bool)

  datatype Outbound = Outbound(ord: nat, env: Envelope)

  datatype Verdict = Accepted | Rejected(reason: Reason)

  datatype Decision = Decision(verdict: Verdict, compensating: Option<EventId>)

  type Envelopes = map<EventId, Envelope>

  /** The event log, with central's own clock and the count of events central has issued. */
  datatype Journal = Journal(events: Envelopes, clock: Hlc, issued: nat)

  datatype Outbox = Outbox(queue: map<NodeId, seq<Outbound>>, nextOrd: nat, enqueued: set<(NodeId, EventId)>)

  /** Reference data: which SKUs are deleted, what was ordered, which SKUs a node refuses. */
  datatype Refs = Refs(items: map<string, bool>, orders: map<(string, string), real>, nodes: map<NodeId, set<string>>)

  datatype Books = Books(refs: Refs, receipts: map<EventId, Fact>, transit: map<(string, Key), Row>,
                         folded: map<(EventId, Key), real>)

  datatype Store = Store(journal: Journal, outbox: Outbox, books: Books, decisions: map<EventId, Decision>)

  // ---------------------------------------------------------------- writes

  /** Idempotent by id: a stored event is never replaced. */
  function Append(j: Journal, env: Envelope): Journal
  {
    if env.id in j.events then j else j.(events := j.events[env.id := env])
  }

  function RecordReceipt(b: Books, id: EventId, f: Fact): Books
  {
    if id in b.receipts then b else b.(receipts := b.receipts[id := f])
  }

  /** Stores a row, or updates only the dispatched quantity of the one there. */
  function RecordDispatch(b: Books, transfer: string, k: Key, row: Row): Books
  {
    var stored := if (transfer, k) in b.transit then b.transit[(transfer, k)].(dispatched := row.dispatched) else row;
    b.(transit := b.transit[(transfer, k) := stored])
  }

  /** Adds to a row once per (event, key). */
  function AddReceived(b: Books, id: EventId, transfer: string, k: Key, qty: real): Books
    requires (transfer, k) in b.transit
  {
    if (id, k) in b.folded then b
    else
      var row := b.transit[(transfer, k)];
      b.(folded := b.folded[(id, k) := qty], transit := b.transit[(transfer, k) := row.(received := row.received + qty)])
  }

  function FailTransfer(b: Books, transfer: string): Books
  {
    b.(transit := map tk | tk in b.transit ::
         if tk.0 == transfer then b.transit[tk].(failed := true) else b.transit[tk])
  }

  function QueueOf(o: Outbox, target: NodeId): seq<Outbound>
  {
    if target in o.queue then o.queue[target] else []
  }

  function EnqueueOne(o: Outbox, target: NodeId, env: Envelope): Outbox
  {
    if (target, env.id) in o.enqueued then o
    else Outbox(o.queue[target := QueueOf(o, target) + [Outbound(o.nextOrd + 1, env)]], o.nextOrd + 1,
                o.enqueued + {(target, env.id)})
  }

  /** Idempotent per (target, event). */
  function Enqueue(o: Outbox, target: NodeId, envs: seq<Envelope>): Outbox
  {
    if envs == [] then o else EnqueueOne(Enqueue(o, target, envs[..|envs| - 1]), target, envs[|envs| - 1])
  }

  /** Central's clock after n more emissions answering a cause stamped at. */
  function ClockAfter(c: Hlc, at: Hlc, now: Int64, n: nat): Hlc
  {
    if n == 0 then c else MergeStamps(ClockAfter(c, at, now, n - 1), at, now, CENTRAL_NODE)
  }

  /** The envelopes central seals for drafts that answer the event cause, stamped at. */
  function Sealed(j: Journal, drafts: seq<Draft>, cause: EventId, at: Hlc, now: Int64): (envs: seq<Envelope>)
    ensures |envs| == |drafts|
  {
    seq(|drafts|, i requires 0 <= i < |drafts| =>
          Envelope(EventId(CENTRAL_NODE, j.issued + 1 + i), drafts[i].aggregate,
                   ClockAfter(j.clock, at, now, i + 1), Some(cause), drafts[i].body))
  }

  function Stored(events: Envelopes, envs: seq<Envelope>): Envelopes
  {
    if envs == [] then events else Stored(events, envs[..|envs| - 1])[envs[|envs| - 1].id := envs[|envs| - 1]]
  }

  /** Seals and stores all of them, or none: emission is atomic. */
  function EmitCentral(j: Journal, drafts: seq<Draft>, cause: EventId, at: Hlc, now: Int64): Journal
  {
    Journal(Stored(j.events, Sealed(j, drafts, cause, at, now)), ClockAfter(j.clock, at, now, |drafts|),
            j.issued + |drafts|)
  }

  // ---------------------------------------------------------------- reads

  /** The share of one receipt in the total of an order line. */
  function Share(f: Fact, po: string, sku: string): real
  {
    if f.po == po && f.sku == sku then f.qty else 0.0
  }

  ghost function PoSum(receipts: map<EventId, Fact>, po: string, sku: string): real
  {
    if receipts == map[] then 0.0
    else
      var id :| id in receipts;
      Share(receipts[id], po, sku) + PoSum(receipts - {id}, po, sku)
  }

  lemma {:induction false} PoSumAt(receipts: map<EventId, Fact>, id: EventId, po: string, sku: string)
    requires id in receipts
    ensures PoSum(receipts, po, sku) == Share(receipts[id], po, sku) + PoSum(receipts - {id}, po, sku)
    decreases |receipts|
  {
    var p :| p in receipts && PoSum(receipts, po, sku) == Share(receipts[p], po, sku) + PoSum(receipts - {p}, po, sku);
    if p != id {
      PoSumAt(receipts - {p}, id, po, sku);
      PoSumAt(receipts - {id}, p, po, sku);
      assert receipts - {p} - {id} == receipts - {id} - {p};
    }
  }

  /** The order "first seen" is decided by. */
  predicate IdLess(a: EventId, b: EventId)
  {
    if a.node != b.node then CompareNames(a.node, b.node) < 0 else a.seqNo < b.seqNo
  }

  ghost predicate IsFirst(receipts: map<EventId, Fact>, note: string, sku: string, f: EventId)
  {
    && f in receipts && receipts[f].note == note && receipts[f].sku == sku
    && forall id :: id in receipts && receipts[id].note == note && receipts[id].sku == sku ==> !IdLess(id, f)
  }

  lemma IdLessTotal(a: EventId, b: EventId)
    ensures a != b ==> IdLess(a, b) || IdLess(b, a)
    ensures !(IdLess(a, b) && IdLess(b, a))
  {
    NamesAntisymmetric(a.node, b.node);
  }

  lemma IdLessTransitive(a: EventId, b: EventId, c: EventId)
    requires IdLess(a, b) && IdLess(b, c)
    ensures IdLess(a, c)
  {
    if a.node != b.node && b.node != c.node {
      NamesTransitive(a.node, b.node, c.node);
      NamesAntisymmetric(a.node, c.node);
    }
  }

  ghost predicate Keyed(receipts: map<EventId, Fact>, note: string, sku: string)
  {
    exists id :: id in receipts && receipts[id].note == note && receipts[id].sku == sku
  }

  lemma {:induction false} FirstExists(receipts: map<EventId, Fact>, note: string, sku: string)
    requires Keyed(receipts, note, sku)
    ensures exists f :: IsFirst(receipts, note, sku, f)
    decreases |receipts|
  {
    hide IdLess;
    var a :| a in receipts && receipts[a].note == note && receipts[a].sku == sku;
    IdLessTotal(a, a);
    var rest := receipts - {a};
    if Keyed(rest, note, sku) {
      FirstExists(rest, note, sku);
      var b :| IsFirst(rest, note, sku, b);
      IdLessTotal(a, b);
      forall id | id in rest && rest[id].note == note && rest[id].sku == sku && IdLess(id, a)
        ensures !IdLess(a, b)
      {
        if IdLess(a, b) { IdLessTransitive(id, a, b); }
      }
      assert IsFirst(receipts, note, sku, if IdLess(a, b) then a else b);
    } else {
      assert forall id :: id in receipts && id != a ==> id in rest;
      assert IsFirst(receipts, note, sku, a);
    }
  }

  /** The event that keyed the note for the SKU first, if any did. */
  ghost function FirstSeen(receipts: map<EventId, Fact>, note: string, sku: string): (first: Option<EventId>)
    ensures first.None? <==> !Keyed(receipts, note, sku)
    ensures first.Some? ==> IsFirst(receipts, note, sku, first.value)
    ensures first.Some? ==>
              forall id :: id in receipts && receipts[id].note == note && receipts[id].sku == sku ==>
                if id.node == first.value.node then id.seqNo >= first.value.seqNo else CompareNames(id.node, first.value.node) >= 0
  {
    if Keyed(receipts, note, sku) then
      FirstExists(receipts, note, sku);
      var f :| IsFirst(receipts, note, sku, f);
      Some(f)
    else None
  }

  /** What one event has folded into a transfer line already. */
  function Own(folded: map<(EventId, Key), real>, id: EventId, k: Key): real
  {
    if (id, k) in folded then folded[(id, k)] else 0.0
  }

  ghost function Compensations(events: Envelopes, id: EventId): set<Envelope>
  {
    set c | c in events && events[c].causation == Some(id) :: events[c]
  }

  /** The order of the replayed log: by stamp, then by number. */
  predicate Replays(a: Envelope, b: Envelope)
  {
    Before(a.hlc, b.hlc) || (a.hlc == b.hlc && a.id.seqNo < b.id.seqNo)
  }

  /** envs lists the compensations of id already in the log, in replay order. */
  ghost predicate CompensationsOf(events: Envelopes, id: EventId, envs: seq<Envelope>)
  {
    && (forall e :: e in envs <==> e in Compensations(events, id))
    && (forall i, j :: 0 <= i < j < |envs| ==> envs[i] != envs[j])
    && (forall i, j :: 0 <= i < j < |envs| ==> !Replays(envs[j], envs[i]))
  }
}
