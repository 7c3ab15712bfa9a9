/** The per-node clock of eventlog-lab: it issues stamps that never go backwards. */
module Clock {
  import opened Stamps

  /** A stamp no later stamp exists for: both the counter and the wall reading are at their maximum. */
  predicate Saturated(s: Hlc)
  {
    s.wall == MAX_INT64 && s.logical == MAX_UINT32
  }

  /** One step past prior. A full counter carries into the wall reading instead of wrapping to zero. */
  function BumpLogical(next: Hlc, prior: Hlc): Hlc
  {
    if prior.logical == MAX_UINT32 then next.(wall := Wrap64(prior.wall + 1), logical := 0)
    else next.(wall := prior.wall, logical := prior.logical + 1)
  }

  /** The reading next, moved past prior when it is not already. */
  function Advance(next: Hlc, prior: Hlc): Hlc
  {
    if next.wall < prior.wall || (next.wall == prior.wall && next.logical <= prior.logical)
    then BumpLogical(next, prior)
    else next
  }

  /** The stamp a clock of node id issues after last and floor when its wall clock reads wall. */
  function Ticked(id: NodeId, wall: Int64, last: Hlc, floor: Hlc): Hlc
  {
    Advance(Advance(Hlc(wall, 0, id), last), floor)
  }

  /** A tick sorts strictly after both stamps it advances past, whatever the wall clock reads
      (stalled, reversed, ahead), if and only if neither of them is saturated. */
  lemma TickSortsAfterIff(id: NodeId, wall: Int64, last: Hlc, floor: Hlc)
    requires last.node == id
    ensures Before(last, Ticked(id, wall, last, floor)) && Before(floor, Ticked(id, wall, last, floor))
       <==> !Saturated(last) && !Saturated(floor)
    ensures Ticked(id, wall, last, floor).node == id
  {
    var next := Ticked(id, wall, last, floor);
    var first := Advance(Hlc(wall, 0, id), last);
    BeforeTotal(last, next);
    BeforeTotal(floor, next);
    if Saturated(last) {
      assert first == Hlc(MIN_INT64, 0, id);
      assert !Before(last, next);
    }
  }

  /** It is the least such stamp: the wall clock is followed wherever it is ahead of both, and a
      counter moves by one otherwise. */
  lemma TickIsLeast(id: NodeId, wall: Int64, last: Hlc, floor: Hlc)
    requires !Saturated(last) && !Saturated(floor)
    ensures LeastPast(Ticked(id, wall, last, floor), wall, {last, floor}) && Ticked(id, wall, last, floor).node == id
    ensures wall > last.wall && wall > floor.wall ==> Ticked(id, wall, last, floor) == Hlc(wall, 0, id)
  {
    var r := Ticked(id, wall, last, floor);
    assert PastAll(r, wall, {last, floor});
    forall s: Hlc | PastAll(s, wall, {last, floor})
      ensures s.wall > r.wall || (s.wall == r.wall && s.logical >= r.logical)
    {
      assert last in {last, floor} && floor in {last, floor};
    }
  }

  class NodeClock {
    const id: NodeId
    var last: Hlc

    constructor (id: NodeId)
      ensures Valid() && this.id == id && last == Hlc(0, 0, id)
    {
      this.id := id;
      last := Hlc(0, 0, id);
    }

    ghost predicate Valid()
      reads this
    {
      last.node == id
    }

    /** Advances past both last and floor; the loop visits them in that order. */
    method Tick(floor: Hlc, wall: Int64) returns (next: Hlc)
      requires Valid()
      modifies this
      ensures Valid() && next == last == Ticked(id, wall, old(last), floor)
      ensures !Saturated(old(last)) && !Saturated(floor) ==> LeastPast(next, wall, {old(last), floor})
    {
      if !Saturated(last) && !Saturated(floor) { TickIsLeast(id, wall, last, floor); }
      var priors := [last, floor];
      next := Hlc(wall, 0, id);
      for i := 0 to 2
        invariant last == old(last)
        invariant i == 0 ==> next == Hlc(wall, 0, id)
        invariant i == 1 ==> next == Advance(Hlc(wall, 0, id), last)
        invariant i == 2 ==> next == Ticked(id, wall, last, floor)
      {
        var prior := priors[i];
        if next.wall < prior.wall {
          next := BumpLogical(next, prior);
        } else if next.wall == prior.wall && next.logical <= prior.logical {
          next := BumpLogical(next, prior);
        }
      }
      last := next;
    }

    /** The next local stamp: strictly after every stamp this clock issued, unless saturated. */
    method Now(wall: Int64) returns (next: Hlc)
      requires Valid()
      modifies this
      ensures Valid() && next == last == Ticked(id, wall, old(last), Hlc(0, 0, id))
      ensures !Saturated(old(last)) ==> Before(old(last), next) && LeastPast(next, wall, {old(last), Hlc(0, 0, id)})
      ensures wall > old(last).wall && wall > 0 ==> next == Hlc(wall, 0, id)
    {
      TickSortsAfterIff(id, wall, last, Hlc(0, 0, id));
      next := Tick(Hlc(0, 0, id), wall);
    }

    /** Merges a remote stamp; what this clock issues from here on sorts after it. */
    method Observe(remote: Hlc, wall: Int64) returns (next: Hlc)
      requires Valid()
      modifies this
      ensures Valid() && next == last == Ticked(id, wall, old(last), remote)
      ensures !Saturated(old(last)) && !Saturated(remote) ==>
                Before(old(last), next) && Before(remote, next) && LeastPast(next, wall, {old(last), remote})
      ensures wall > old(last).wall && wall > remote.wall ==> next == Hlc(wall, 0, id)
    {
      TickSortsAfterIff(id, wall, last, remote);
      next := Tick(remote, wall);
    }
  }
}
