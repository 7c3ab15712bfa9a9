/** The wire form of an event and its two conversions. */
module Codec {
  import opened Stamps
  import opened Events

  /** The node id is carried once: it names both the event and its stamp. */
  datatype WireEvent = WireEvent(
    nodeId: NodeId, seqNo: nat, hlcWall: Int64, hlcLogical: Uint32, sku: string, kind: int, delta: Int64,
    name: Option<string>, reorderPoint: Option<Int64>, deletedTo: Option<bool>)

  /** Validates first, so a node never emits what its peer would have to reject. */
  function Encode(e: Event): Result<WireEvent>
  {
    if !Valid(e) then Malformed
    else Ok(WireEvent(e.id.node, e.id.seqNo, e.hlc.wall, e.hlc.logical, e.sku, e.kind, e.delta,
                      if e.meta.Some? then e.meta.value.name else None,
                      if e.meta.Some? then e.meta.value.reorderPoint else None,
                      e.deletedTo))
  }

  /** The trust boundary for remote input. A frame may hold a missing event. */
  function Decode(pe: Option<WireEvent>): Result<Event>
  {
    if pe.None? then Malformed
    else
      var p := pe.value;
      var meta := if p.name.Some? || p.reorderPoint.Some? then Some(MetaSet(p.name, p.reorderPoint)) else None;
      var e := Event(EventId(p.nodeId, p.seqNo), Hlc(p.hlcWall, p.hlcLogical, p.nodeId), p.sku, p.kind, p.delta, meta, p.deletedTo);
      if Valid(e) then Ok(e) else Malformed
  }

  /** Decoding undoes encoding on exactly the valid events; nothing else can be encoded. */
  lemma DecodeUndoesEncode(e: Event)
    ensures Encode(e).Ok? <==> Valid(e)
    ensures Encode(e).Ok? ==> Decode(Some(Encode(e).value)) == Ok(e)
  {
  }

  /** Encoding undoes decoding, so two different frames never decode to the same event. */
  lemma EncodeUndoesDecode(p: WireEvent)
    ensures Decode(Some(p)).Ok? ==> Encode(Decode(Some(p)).value) == Ok(p)
  {
  }
}
