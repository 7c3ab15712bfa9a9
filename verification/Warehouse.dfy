/** The domain of warehouse-node: balanced stock movements, the events that carry them, and the
    hybrid logical clock that orders them. Quantities are exact.
 */
module Warehouse {
  import opened Stamps
  import opened Clock
  import opened Events

  // What a stock balance in transit is kept per: it is at no location.
  datatype Key = Key(sku: string, lot: string)

  /** qty leaves src and arrives at dst. */
  datatype Movement = Movement(sku: string, lot: string, src: string, dst: string, qty: real)

  const EXTERNAL := "external"

  function KeyOf(m: Movement): Key
  {
    Key(m.sku, m.lot)
  }

  /** The movement that undoes qty of m. */
  function Reverse(m: Movement, qty: real): Movement
  {
    Movement(m.sku, m.lot, m.dst, m.src, qty)
  }

  datatype Reason = UnknownSku | DuplicateReceipt | PoOverReceipt | TransferRejected | TransferOverReceipt | CountVariance

  datatype Payload =
    | GoodsReceived(receipt: string, note: string, po: string, move: Movement)
    | PutAway(move: Movement)
    | Picked(move: Movement)
    | StockAdjusted(move: Movement, reason: Reason)
    | TransferDispatched(transfer: string, source: NodeId, destination: NodeId, lines: seq<Movement>)
    | TransferReceived(transfer: string, lines: seq<Movement>)
    | ReceiptLineRecorded(receipt: string, lineNo: nat, key: Key, qtyBase: real)
    | Other

  // An event before it is sealed with an id and a stamp.
  datatype Draft = Draft(aggregate: string, body: Payload)

  datatype Envelope = Envelope(id: EventId, aggregate: string, hlc: Hlc, causation: Option<EventId>, body: Payload)

  ghost predicate DistinctKeys(lines: seq<Movement>)
  {
    forall i, j :: 0 <= i < j < |lines| ==> KeyOf(lines[i]) != KeyOf(lines[j])
  }

  ghost predicate Positive(lines: seq<Movement>)
  {
    forall i :: 0 <= i < |lines| ==> lines[i].qty > 0.0
  }

  /** Goods come off a truck: received lines move from outside to a place in the warehouse. */
  ghost predicate Inbound(ms: seq<Movement>)
  {
    forall i :: 0 <= i < |ms| ==> ms[i].src == EXTERNAL && ms[i].dst != EXTERNAL && ms[i].qty > 0.0
  }

  /** Goods go onto a truck: dispatched lines move from a place in the warehouse to outside. */
  ghost predicate Outgoing(ms: seq<Movement>)
  {
    forall i :: 0 <= i < |ms| ==> ms[i].src != EXTERNAL && ms[i].dst == EXTERNAL && ms[i].qty > 0.0
  }

  /** Events as the commands of a node issue them: a dispatch names its own node as the source and
      another as the destination, and lines move between a shelf and the outside. */
  ghost predicate IssuedAt(n: NodeId, body: Payload)
  {
    match body
    case GoodsReceived(_, _, _, move) => move.src == EXTERNAL && move.dst != EXTERNAL
    case TransferDispatched(_, source, destination, lines) => n == source && source != destination && lines != [] && Outgoing(lines)
    case TransferReceived(_, lines) => lines != [] && Inbound(lines)
    case _ => true
  }

  predicate Dispatches(body: Payload, transfer: string)
  {
    body.TransferDispatched? && body.transfer == transfer
  }

  predicate Receives(body: Payload, transfer: string)
  {
    body.TransferReceived? && body.transfer == transfer
  }

  function Total(ms: seq<Movement>): real
  {
    if ms == [] then 0.0 else Total(ms[..|ms| - 1]) + ms[|ms| - 1].qty
  }

  predicate Mentions(ms: seq<Movement>, k: Key)
  {
    exists i :: 0 <= i < |ms| && KeyOf(ms[i]) == k
  }

  // ---------------------------------------------------------------- the clock

  /** The reading one logical step after (wall, counter); a full counter carries into the wall. */
  function Bumped(wall: Int64, counter: Uint32, node: NodeId): Hlc
  {
    if counter == MAX_UINT32 then Hlc(Wrap64(wall + 1), 0, node) else Hlc(wall, counter + 1, node)
  }

  function Tick(prev: Hlc, now: Int64, node: NodeId): Hlc
  {
    if now > prev.wall then Hlc(now, 0, node) else Bumped(prev.wall, prev.logical, node)
  }

  /** The next reading after observing a remote one. */
  function MergeStamps(mine: Hlc, remote: Hlc, now: Int64, node: NodeId): Hlc
  {
    var either := if mine.wall > remote.wall then mine.wall else remote.wall;
    var top := if either > now then either else now;
    if top == now && now > mine.wall && now > remote.wall then Hlc(now, 0, node)
    else if top == mine.wall && top == remote.wall then
      Bumped(top, if mine.logical > remote.logical then mine.logical else remote.logical, node)
    else if mine.wall == top then Bumped(top, mine.logical, node)
    else Bumped(top, remote.logical, node)
  }

  /** What is emitted after observing remote sorts strictly after it and after everything emitted
      before, whatever the wall clock reads, if and only if neither reading is saturated. */
  lemma MergeSortsAfterIff(mine: Hlc, remote: Hlc, now: Int64, node: NodeId)
    ensures var r := MergeStamps(mine, remote, now, node);
            Before(mine, r) && Before(remote, r) <==> !Saturated(mine) && !Saturated(remote)
    ensures MergeStamps(mine, remote, now, node).node == node
  {
  }

  lemma TickSortsAfter(prev: Hlc, now: Int64, node: NodeId)
    ensures Before(prev, Tick(prev, now, node)) <==> !Saturated(prev)
  {
  }

  /** A tick is the least reading not before the wall clock and past the previous one. */
  lemma TickIsLeast(prev: Hlc, now: Int64, node: NodeId)
    requires !Saturated(prev)
    ensures LeastPast(Tick(prev, now, node), now, {prev}) && Tick(prev, now, node).node == node
    ensures now > prev.wall ==> Tick(prev, now, node) == Hlc(now, 0, node)
  {
    var r := Tick(prev, now, node);
    assert PastAll(r, now, {prev});
    forall s: Hlc | PastAll(s, now, {prev})
      ensures s.wall > r.wall || (s.wall == r.wall && s.logical >= r.logical)
    {
      assert prev in {prev};
    }
  }

  /** A merged reading is the least one not before the wall clock and past both. */
  lemma MergeIsLeast(mine: Hlc, remote: Hlc, now: Int64, node: NodeId)
    requires !Saturated(mine) && !Saturated(remote)
    ensures LeastPast(MergeStamps(mine, remote, now, node), now, {mine, remote})
    ensures now > mine.wall && now > remote.wall ==> MergeStamps(mine, remote, now, node) == Hlc(now, 0, node)
  {
    var r := MergeStamps(mine, remote, now, node);
    assert PastAll(r, now, {mine, remote});
    forall s: Hlc | PastAll(s, now, {mine, remote})
      ensures s.wall > r.wall || (s.wall == r.wall && s.logical >= r.logical)
    {
      assert mine in {mine, remote} && remote in {mine, remote};
    }
  }
}
