/** Arbitration: the validators for the invariants no single node can check, and the consequences
    an event leaves in central's books. Each validator subtracts what the judged event has
    already contributed on an earlier attempt.
 */
module Arbiter {
  import opened Stamps
  import opened Events
  import opened Warehouse
  import opened Central

  datatype Rejection = Rejection(reason: Reason, events: seq<Draft>, excess: real)

  // ---------------------------------------------------------------- validators

  function MovesOf(body: Payload): seq<Movement>
  {
    match body
    case GoodsReceived(_, _, _, move) => [move]
    case TransferDispatched(_, _, _, lines) => lines
    case TransferReceived(_, lines) => lines
    case _ => []
  }

  function Adjustment(aggregate: string, move: Movement, reason: Reason): Draft
  {
    Draft(aggregate, StockAdjusted(move, reason))
  }

  predicate Live(refs: Refs, sku: string)
  {
    sku in refs.items && !refs.items[sku]
  }

  function UnknownEvents(refs: Refs, ms: seq<Movement>): seq<Draft>
  {
    if ms == [] then []
    else
      var m := ms[|ms| - 1];
      UnknownEvents(refs, ms[..|ms| - 1])
      + if Live(refs, m.sku) then [] else [Adjustment(m.sku, Reverse(m, m.qty), UnknownSku)]
  }

  function UnknownTotal(refs: Refs, ms: seq<Movement>): real
  {
    if ms == [] then 0.0
    else UnknownTotal(refs, ms[..|ms| - 1]) + if Live(refs, ms[|ms| - 1].sku) then 0.0 else ms[|ms| - 1].qty
  }

  function CheckSkus(b: Books, env: Envelope): Option<Rejection>
  {
    var events := UnknownEvents(b.refs, MovesOf(env.body));
    if events == [] then None else Some(Rejection(UnknownSku, events, UnknownTotal(b.refs, MovesOf(env.body))))
  }

  ghost function CheckNote(b: Books, env: Envelope): Option<Rejection>
  {
    match env.body
    case GoodsReceived(_, note, _, move) =>
      var first := FirstSeen(b.receipts, note, move.sku);
      if first == None || first == Some(env.id) then None
      else Some(Rejection(DuplicateReceipt, [Adjustment(move.sku, Reverse(move, move.qty), DuplicateReceipt)], move.qty))
    case _ => None
  }

  /** How far the event takes the order past its ordered quantity, not counting what this event
      has recorded already. */
  ghost function Excess(b: Books, id: EventId, po: string, sku: string, qty: real): real
    requires (po, sku) in b.refs.orders
  {
    var own := if id in b.receipts then b.receipts[id].qty else 0.0;
    PoSum(b.receipts, po, sku) - own + qty - b.refs.orders[(po, sku)]
  }

  function OverReceipt(receipt: string, move: Movement, excess: real): Rejection
  {
    Rejection(PoOverReceipt,
              [Adjustment(move.sku, Reverse(move, excess), PoOverReceipt),
               Draft(receipt, ReceiptLineRecorded(receipt, 0, KeyOf(move), -excess))],
              excess)
  }

  ghost function CheckOrder(b: Books, env: Envelope): Option<Rejection>
  {
    match env.body
    case GoodsReceived(receipt, _, po, move) =>
      if (po, move.sku) !in b.refs.orders then None
      else
        var excess := Excess(b, env.id, po, move.sku, move.qty);
        if excess <= 0.0 then None
        else Some(OverReceipt(receipt, move, if excess > move.qty then move.qty else excess))
    case _ => None
  }

  predicate Refuses(refs: Refs, destination: NodeId, ms: seq<Movement>)
  {
    destination !in refs.nodes || exists i :: 0 <= i < |ms| && ms[i].sku in refs.nodes[destination]
  }

  function ReturnEvents(transfer: string, ms: seq<Movement>): seq<Draft>
  {
    if ms == [] then []
    else ReturnEvents(transfer, ms[..|ms| - 1])
         + [Adjustment(transfer, Reverse(ms[|ms| - 1], ms[|ms| - 1].qty), TransferRejected)]
  }

  function CheckDestination(b: Books, env: Envelope): Option<Rejection>
  {
    match env.body
    case TransferDispatched(transfer, _, destination, lines) =>
      if Refuses(b.refs, destination, lines)
      then Some(Rejection(TransferRejected, ReturnEvents(transfer, lines), Total(lines)))
      else None
    case _ => None
  }

  /** How much of a received line is beyond what is left of its dispatch, not counting what this
      event has taken already. */
  function Over(b: Books, id: EventId, transfer: string, m: Movement): real
  {
    var k := KeyOf(m);
    var remaining := if (transfer, k) in b.transit
                     then b.transit[(transfer, k)].dispatched - (b.transit[(transfer, k)].received - Own(b.folded, id, k))
                     else 0.0;
    if m.qty - remaining <= 0.0 then 0.0 else m.qty - remaining
  }

  function OverEvents(b: Books, id: EventId, transfer: string, ms: seq<Movement>): seq<Draft>
  {
    if ms == [] then []
    else
      var m := ms[|ms| - 1];
      OverEvents(b, id, transfer, ms[..|ms| - 1])
      + if Over(b, id, transfer, m) <= 0.0 then []
        else [Adjustment(m.sku, Reverse(m, Over(b, id, transfer, m)), TransferOverReceipt)]
  }

  function OverTotal(b: Books, id: EventId, transfer: string, ms: seq<Movement>): real
  {
    if ms == [] then 0.0
    else OverTotal(b, id, transfer, ms[..|ms| - 1]) + Over(b, id, transfer, ms[|ms| - 1])
  }

  function CheckReceipt(b: Books, env: Envelope): Option<Rejection>
  {
    match env.body
    case TransferReceived(transfer, lines) =>
      var events := OverEvents(b, env.id, transfer, lines);
      if events == [] then None
      else Some(Rejection(TransferOverReceipt, events, OverTotal(b, env.id, transfer, lines)))
    case _ => None
  }

  /** The chain: the first validator to fire decides. */
  ghost function Judge(b: Books, env: Envelope): Option<Rejection>
  {
    if CheckSkus(b, env).Some? then CheckSkus(b, env)
    else if CheckNote(b, env).Some? then CheckNote(b, env)
    else if CheckOrder(b, env).Some? then CheckOrder(b, env)
    else if CheckDestination(b, env).Some? then CheckDestination(b, env)
    else CheckReceipt(b, env)
  }

  // ---------------------------------------------------------------- consequences

  /** A receipt counts unless it was refused outright. */
  predicate Counts(rej: Option<Rejection>)
  {
    rej.None? || rej.value.reason == PoOverReceipt
  }

  /** How many store calls record makes, counting a line it leaves alone as one that does nothing. */
  function RecordSteps(body: Payload, rej: Option<Rejection>): nat
  {
    match body
    case GoodsReceived(_, _, _, _) => if Counts(rej) then 1 else 0
    case TransferDispatched(_, _, _, lines) => |lines| + if rej.Some? then 1 else 0
    case TransferReceived(_, lines) => |lines|
    case _ => 0
  }

  function ReceiptFact(id: EventId, note: string, po: string, move: Movement, rej: Option<Rejection>): Fact
  {
    Fact(id.node, po, note, move.sku, move.qty - if rej.Some? then rej.value.excess else 0.0)
  }

  /** Folds one received line into its row, as far as the dispatch still covers it. */
  function FoldLine(b: Books, id: EventId, transfer: string, m: Movement): Books
  {
    var k := KeyOf(m);
    if (transfer, k) !in b.transit then b
    else
      var remaining := b.transit[(transfer, k)].dispatched - b.transit[(transfer, k)].received;
      var accepted := if m.qty > remaining then remaining else m.qty;
      if accepted <= 0.0 then b else AddReceived(b, id, transfer, k, accepted)
  }

  function RecordStep(b: Books, env: Envelope, rej: Option<Rejection>, i: nat): Books
    requires i < RecordSteps(env.body, rej)
  {
    match env.body
    case GoodsReceived(_, note, po, move) => RecordReceipt(b, env.id, ReceiptFact(env.id, note, po, move, rej))
    case TransferDispatched(transfer, source, destination, lines) =>
      if i < |lines| then RecordDispatch(b, transfer, KeyOf(lines[i]), Row(source, destination, lines[i].qty, 0.0, false))
      else FailTransfer(b, transfer)
    case TransferReceived(transfer, lines) => FoldLine(b, env.id, transfer, lines[i])
  }

  /** The source of the first line of ms that has an in-transit row. */
  function SourceOf(transit: map<(string, Key), Row>, transfer: string, ms: seq<Movement>): Option<NodeId>
  {
    if ms == [] then None
    else if (transfer, KeyOf(ms[0])) in transit then Some(transit[(transfer, KeyOf(ms[0]))].source)
    else SourceOf(transit, transfer, ms[1..])
  }

  /** Who else needs the event for its own view of a transfer. */
  function FanTarget(b: Books, body: Payload, rej: Option<Rejection>): Option<NodeId>
  {
    match body
    case TransferDispatched(_, _, destination, _) => if rej.Some? then None else Some(destination)
    case TransferReceived(transfer, lines) => SourceOf(b.transit, transfer, lines)
    case _ => None
  }

  function FanOut(o: Outbox, b: Books, env: Envelope, rej: Option<Rejection>): Outbox
  {
    var target := FanTarget(b, env.body, rej);
    if target.Some? then Enqueue(o, target.value, [env]) else o
  }
}
