/** Events of eventlog-lab, their validation, and version vectors. */
module Events {
  import opened Stamps

  datatype Option<+T> = None | Some(value: T)

  datatype Result<+T> = Ok(value: T) | Malformed

  datatype EventId = EventId(node: NodeId, seqNo: nat)

  const KIND_QUANTITY_DELTA := 1
  const KIND_META_SET := 2
  const KIND_DELETE_SET := 3

  datatype MetaSet = MetaSet(name: Option<string>, reorderPoint: Option<Int64>)

  /** One immutable fact about a stock item. Which payload field counts depends on kind. */
  datatype Event = Event(
    id: EventId, hlc: Hlc, sku: string, kind: int,
    delta: Int64, meta: Option<MetaSet>, deletedTo: Option<bool>)

  /** The trust boundary: a log stores nothing that fails this. */
  predicate Valid(e: Event)
  {
    && e.id.node != "" && e.id.seqNo != 0 && e.sku != ""
    && e.hlc.node == e.id.node
    && (e.kind == KIND_QUANTITY_DELTA || e.kind == KIND_META_SET || e.kind == KIND_DELETE_SET)
    && (e.kind != KIND_QUANTITY_DELTA ==> e.delta == 0)
    && (e.kind != KIND_META_SET ==> e.meta.None?)
    && (e.kind != KIND_DELETE_SET ==> e.deletedTo.None?)
    && (e.kind == KIND_QUANTITY_DELTA ==> e.delta != 0 && e.delta != MIN_INT64)
    && (e.kind == KIND_META_SET ==> e.meta.Some? && (e.meta.value.name.Some? || e.meta.value.reorderPoint.Some?))
    && (e.kind == KIND_DELETE_SET ==> e.deletedTo.Some?)
  }

  /** What passes carries exactly the payload of its kind, and that payload says something: a delta
      that is not zero and whose negation is representable, at least one field, or a tombstone value. */
  lemma ValidIff(e: Event)
    ensures Valid(e) <==>
              && e.id.node != "" && e.id.seqNo > 0 && e.sku != "" && e.hlc.node == e.id.node
              && (|| (e.kind == 1 && e.delta != 0 && MIN_INT64 <= -(e.delta as int) <= MAX_INT64 && e.meta == None && e.deletedTo == None)
                  || (e.kind == 2 && e.delta == 0 && e.deletedTo == None && e.meta.Some? && e.meta.value != MetaSet(None, None))
                  || (e.kind == 3 && e.delta == 0 && e.meta == None && e.deletedTo.Some?))
  {
  }

  /** Highest sequence number held per node; an absent node reads as zero. */
  type VersionVector = map<NodeId, nat>

  function At(vv: VersionVector, n: NodeId): nat
  {
    if n in vv then vv[n] else 0
  }

  function Observe(vv: VersionVector, id: EventId): VersionVector
  {
    if At(vv, id.node) < id.seqNo then vv[id.node := id.seqNo] else vv
  }

  predicate Contains(vv: VersionVector, id: EventId)
  {
    id.seqNo <= At(vv, id.node)
  }

  predicate Dominates(vv: VersionVector, other: VersionVector)
  {
    forall n :: n in other ==> other[n] <= At(vv, n)
  }

  /** Mutual dominance, the comparison the harness uses, is agreement at every node
      (including the nodes one vector lists at zero and the other does not list). */
  lemma MutualDominanceIsAgreement(a: VersionVector, b: VersionVector)
    ensures Dominates(a, b) && Dominates(b, a) <==> forall n :: At(a, n) == At(b, n)
  {
  }
}
