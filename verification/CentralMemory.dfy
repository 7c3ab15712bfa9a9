/** The in-memory store as it runs: maps, queues and counters updated in place, each method proved
    to do what the value-level store of module Central says.
 */
module CentralMemory {
  import opened Stamps
  import opened Events
  import opened Warehouse
  import opened Central

  function AppendAll(j: Journal, envs: seq<Envelope>): Journal
  {
    if envs == [] then j else Append(AppendAll(j, envs[..|envs| - 1]), envs[|envs| - 1])
  }

  lemma AppendAllOne(j: Journal, env: Envelope)
    ensures AppendAll(j, [env]) == Append(j, env)
  {
  }

  lemma FirstIs(receipts: map<EventId, Fact>, note: string, sku: string, f: EventId)
    requires IsFirst(receipts, note, sku, f)
    ensures FirstSeen(receipts, note, sku) == Some(f)
  {
    assert Keyed(receipts, note, sku);
    IdLessTotal(f, FirstSeen(receipts, note, sku).value);
  }

  lemma ReplaysTransitive(a: Envelope, b: Envelope, c: Envelope)
    requires Replays(a, b) && Replays(b, c)
    ensures Replays(a, c)
  {
    hide Before;
    if Before(a.hlc, b.hlc) && Before(b.hlc, c.hlc) { BeforeTransitive(a.hlc, b.hlc, c.hlc); }
  }

  lemma SealedNone(j: Journal, cause: EventId, at: Hlc, now: Int64)
    ensures Sealed(j, [], cause, at, now) == [] && Stored(j.events, []) == j.events && ClockAfter(j.clock, at, now, 0) == j.clock
  {
  }

  lemma SealedMore(j: Journal, drafts: seq<Draft>, i: nat, cause: EventId, at: Hlc, now: Int64)
    requires i < |drafts|
    ensures var env := Envelope(EventId(CENTRAL_NODE, j.issued + 1 + i), drafts[i].aggregate,
                                ClockAfter(j.clock, at, now, i + 1), Some(cause), drafts[i].body);
            var out := Sealed(j, drafts[..i], cause, at, now);
            && Sealed(j, drafts[..i + 1], cause, at, now) == out + [env]
            && Stored(j.events, out + [env]) == Stored(j.events, out)[env.id := env]
            && env.hlc == MergeStamps(ClockAfter(j.clock, at, now, i), at, now, CENTRAL_NODE)
  {
  }

  predicate Foremost(e: Envelope, es: set<Envelope>)
  {
    e in es && forall x :: x in es ==> !Replays(x, e)
  }

  lemma {:induction false} ForemostExists(es: set<Envelope>)
    requires es != {}
    ensures exists e :: Foremost(e, es)
    decreases |es|
  {
    var a :| a in es;
    var rest := es - {a};
    assert es == rest + {a};
    BeforeTotal(a.hlc, a.hlc);
    hide Replays;
    if rest == {} {
      assert Foremost(a, es);
    } else {
      ForemostExists(rest);
      var b :| Foremost(b, rest);
      ForemostOfTwo(rest, a, b);
      assert Foremost(a, es) || Foremost(b, es);
    }
  }

  lemma ForemostOfTwo(rest: set<Envelope>, a: Envelope, b: Envelope)
    requires Foremost(b, rest)
    ensures Foremost(if Replays(a, b) then a else b, rest + {a})
  {
    BeforeTotal(a.hlc, a.hlc);
    assert !Replays(a, a);
    hide Replays;
    forall x | x in rest && Replays(a, b)
      ensures !Replays(x, a)
    {
      if Replays(x, a) { ReplaysTransitive(x, a, b); }
    }
  }

  class Memory {
    var events: Envelopes
    var clock: Hlc
    var issued: nat
    var queue: map<NodeId, seq<Outbound>>
    var nextOrd: nat
    var enqueued: set<(NodeId, EventId)>
    var items: map<string, bool>
    var orders: map<(string, string), real>
    var nodes: map<NodeId, set<string>>
    var receipts: map<EventId, Fact>
    var transit: map<(string, Key), Row>
    var folded: map<(EventId, Key), real>
    var decisions: map<EventId, Decision>

    function TheJournal(): Journal
      reads this
    {
      Journal(events, clock, issued)
    }

    function TheOutbox(): Outbox
      reads this
    {
      Outbox(queue, nextOrd, enqueued)
    }

    function TheBooks(): Books
      reads this
    {
      Books(Refs(items, orders, nodes), receipts, transit, folded)
    }

    function Value(): Store
      reads this
    {
      Store(TheJournal(), TheOutbox(), TheBooks(), decisions)
    }

    /** An empty store over the reference data it is loaded with. */
    constructor (refs: Refs)
      ensures Value() == Store(Journal(map[], ZERO_STAMP, 0), Outbox(map[], 0, {}), Books(refs, map[], map[], map[]), map[])
    {
      events, clock, issued := map[], ZERO_STAMP, 0;
      queue, nextOrd, enqueued := map[], 0, {};
      items, orders, nodes := refs.items, refs.orders, refs.nodes;
      receipts, transit, folded := map[], map[], map[];
      decisions := map[];
    }

    /** Stores events idempotently by id and returns those that were new. */
    method Append(envs: seq<Envelope>) returns (added: seq<Envelope>)
      modifies this`events
      ensures Value() == old(Value()).(journal := AppendAll(old(TheJournal()), envs))
      ensures forall e :: e in added ==> e in envs && e.id !in old(events)
      ensures forall id :: id in events && id !in old(events) ==> events[id] in added
      ensures forall id :: id in old(events) ==> id in events && events[id] == old(events)[id]
    {
      added := [];
      for i := 0 to |envs|
        invariant TheJournal() == AppendAll(old(TheJournal()), envs[..i])
        invariant forall id :: id in old(events) ==> id in events && events[id] == old(events)[id]
        invariant forall e :: e in added ==> e in envs && e.id !in old(events)
        invariant forall id :: id in events && id !in old(events) ==> events[id] in added
      {
        assert envs[..i + 1][..i] == envs[..i];
        if envs[i].id !in events {
          events := events[envs[i].id := envs[i]];
          added := added + [envs[i]];
        }
      }
      assert envs[..|envs|] == envs;
    }

    /** The compensations of id in the log, in replay order. */
    method CompensationsOf(id: EventId) returns (comps: seq<Envelope>)
      ensures Central.CompensationsOf(events, id, comps)
    {
      comps := [];
      var all := set c | c in events && events[c].causation == Some(id) :: events[c];
      var left := all;
      while left != {}
        invariant left <= all
        invariant forall e :: e in comps <==> e in all - left
        invariant forall i, j :: 0 <= i < j < |comps| ==> comps[i] != comps[j] && !Replays(comps[j], comps[i])
        invariant forall d, e :: d in comps && e in left ==> !Replays(e, d)
        decreases |left|
      {
        ForemostExists(left);
        var e :| Foremost(e, left);
        assert e !in comps;
        comps := comps + [e];
        left := left - {e};
      }
    }

    /** Seals drafts with central's next numbers and readings past the cause, and stores them. */
    method EmitCentral(drafts: seq<Draft>, cause: EventId, now: Int64) returns (out: seq<Envelope>)
      modifies this`events, this`clock, this`issued
      ensures var at := if cause in old(events) then old(events)[cause].hlc else ZERO_STAMP;
              && out == Sealed(old(TheJournal()), drafts, cause, at, now)
              && Value() == old(Value()).(journal := Central.EmitCentral(old(TheJournal()), drafts, cause, at, now))
    {
      hide MergeStamps, Sealed, Stored, ClockAfter;
      var at := ZERO_STAMP;
      if cause in events {
        at := events[cause].hlc;
      }
      ghost var j := TheJournal();
      out := [];
      assert drafts[..0] == [];
      SealedNone(j, cause, at, now);
      for i := 0 to |drafts|
        invariant out == Sealed(j, drafts[..i], cause, at, now)
        invariant events == Stored(j.events, out) && issued == j.issued + i && clock == ClockAfter(j.clock, at, now, i)
      {
        issued := issued + 1;
        clock := MergeStamps(clock, at, now, CENTRAL_NODE);
        SealedMore(j, drafts, i, cause, at, now);
        var env := Envelope(EventId(CENTRAL_NODE, issued), drafts[i].aggregate, clock, Some(cause), drafts[i].body);
        events := events[env.id := env];
        out := out + [env];
      }
      assert drafts[..|drafts|] == drafts;
    }

    static lemma EnqueueMore(o: Outbox, target: NodeId, envs: seq<Envelope>, i: nat)
      requires i < |envs|
      ensures Central.Enqueue(o, target, envs[..i + 1]) == EnqueueOne(Central.Enqueue(o, target, envs[..i]), target, envs[i])
    {
      assert envs[..i + 1][..i] == envs[..i];
    }

    method Enqueue(target: NodeId, envs: seq<Envelope>)
      modifies this`queue, this`nextOrd, this`enqueued
      ensures Value() == old(Value()).(outbox := Central.Enqueue(old(TheOutbox()), target, envs))
    {
      assert envs[..0] == [];
      assert Central.Enqueue(TheOutbox(), target, []) == TheOutbox();
      hide Central.Enqueue;
      for i := 0 to |envs|
        invariant TheOutbox() == Central.Enqueue(old(TheOutbox()), target, envs[..i])
      {
        EnqueueMore(old(TheOutbox()), target, envs, i);
        if (target, envs[i].id) !in enqueued {
          enqueued := enqueued + {(target, envs[i].id)};
          nextOrd := nextOrd + 1;
          queue := queue[target := (if target in queue then queue[target] else []) + [Outbound(nextOrd, envs[i])]];
        }
      }
      assert envs[..|envs|] == envs;
    }

    method RecordReceipt(id: EventId, f: Fact)
      modifies this`receipts
      ensures Value() == old(Value()).(books := Central.RecordReceipt(old(TheBooks()), id, f))
      ensures receipts == if id in old(receipts) then old(receipts) else old(receipts)[id := f]
    {
      if id !in receipts {
        receipts := receipts[id := f];
      }
    }

    /** Sums every recorded receipt against an order line. */
    method ReceivedAgainstPO(po: string, sku: string) returns (total: real)
      ensures total == PoSum(receipts, po, sku)
    {
      total := 0.0;
      var left := receipts;
      while left != map[]
        invariant total + PoSum(left, po, sku) == PoSum(receipts, po, sku)
        decreases |left|
      {
        var id :| id in left;
        PoSumAt(left, id, po, sku);
        if left[id].po == po && left[id].sku == sku {
          total := total + left[id].qty;
        }
        left := left - {id};
      }
    }

    /** The event that keyed a delivery note for a SKU first, whatever order the map yields. */
    method DeliveryNoteFirstSeen(note: string, sku: string) returns (first: Option<EventId>)
      ensures first == FirstSeen(receipts, note, sku)
    {
      first := None;
      var left := receipts.Keys;
      while left != {}
        invariant left <= receipts.Keys
        invariant first.None? ==> forall id :: id in receipts && id !in left ==> !(receipts[id].note == note && receipts[id].sku == sku)
        invariant first.Some? ==> first.value in receipts && receipts[first.value].note == note && receipts[first.value].sku == sku
        invariant first.Some? ==>
                    forall id :: id in receipts && id !in left && receipts[id].note == note && receipts[id].sku == sku ==> !IdLess(id, first.value)
        decreases |left|
      {
        var id :| id in left;
        left := left - {id};
        if receipts[id].note == note && receipts[id].sku == sku {
          IdLessTotal(id, id);
          if first.None? || IdLess(id, first.value) {
            if first.Some? { EarlierIsFirst(receipts, left, note, sku, id, first.value); }
            first := Some(id);
          }
        }
      }
      if first.Some? { FirstIs(receipts, note, sku, first.value); }
    }

    static lemma EarlierIsFirst(receipts: map<EventId, Fact>, left: set<EventId>, note: string, sku: string, id: EventId, first: EventId)
      requires IdLess(id, first)
      requires forall x :: x in receipts && x !in left && x != id && receipts[x].note == note && receipts[x].sku == sku ==> !IdLess(x, first)
      ensures forall x :: x in receipts && x !in left && receipts[x].note == note && receipts[x].sku == sku ==> !IdLess(x, id)
    {
      hide IdLess;
      IdLessTotal(id, id);
      forall x | x in receipts && x !in left && receipts[x].note == note && receipts[x].sku == sku
        ensures !IdLess(x, id)
      {
        if IdLess(x, id) { IdLessTransitive(x, id, first); }
      }
    }

    method RecordDispatch(transfer: string, k: Key, row: Row)
      modifies this`transit
      ensures Value() == old(Value()).(books := Central.RecordDispatch(old(TheBooks()), transfer, k, row))
      ensures (transfer, k) in transit && transit == old(transit)[(transfer, k) := transit[(transfer, k)]]
      ensures transit[(transfer, k)] ==
              if (transfer, k) !in old(transit) then row
              else (var was := old(transit)[(transfer, k)]; Row(was.source, was.destination, row.dispatched, was.received, was.failed))
    {
      if (transfer, k) in transit {
        transit := transit[(transfer, k) := transit[(transfer, k)].(dispatched := row.dispatched)];
      } else {
        transit := transit[(transfer, k) := row];
      }
    }

    /** Fails, changing nothing, when the transfer has no such line. */
    method AddReceived(id: EventId, transfer: string, k: Key, qty: real) returns (ok: bool)
      modifies this`transit, this`folded
      ensures ok == ((transfer, k) in old(transit))
      ensures Value() == if ok then old(Value()).(books := Central.AddReceived(old(TheBooks()), id, transfer, k, qty)) else old(Value())
      ensures ok && (id, k) !in old(folded) ==>
                && folded == old(folded)[(id, k) := qty]
                && transit == old(transit)[(transfer, k) := old(transit)[(transfer, k)].(received := old(transit)[(transfer, k)].received + qty)]
      ensures !ok || (id, k) in old(folded) ==> folded == old(folded) && transit == old(transit)
    {
      if (transfer, k) !in transit {
        return false;
      }
      if (id, k) !in folded {
        var row := transit[(transfer, k)];
        folded := folded[(id, k) := qty];
        transit := transit[(transfer, k) := row.(received := row.received + qty)];
      }
      ok := true;
    }

    /** Marks every row of a transfer failed, row by row. */
    method FailTransfer(transfer: string)
      modifies this`transit
      ensures Value() == old(Value()).(books := Central.FailTransfer(old(TheBooks()), transfer))
      ensures transit.Keys == old(transit).Keys
      ensures forall tk :: tk in transit ==> transit[tk] == if tk.0 == transfer then old(transit)[tk].(failed := true) else old(transit)[tk]
    {
      ghost var failed := Central.FailTransfer(TheBooks(), transfer).transit;
      var left := transit.Keys;
      while left != {}
        invariant left <= transit.Keys == failed.Keys
        invariant forall tk :: tk in transit ==> transit[tk] == if tk in left then old(transit)[tk] else failed[tk]
        decreases |left|
      {
        var tk :| tk in left;
        if tk.0 == transfer {
          transit := transit[tk := transit[tk].(failed := true)];
        }
        left := left - {tk};
      }
      assert transit == failed;
    }

    method RecordDecision(id: EventId, d: Decision)
      modifies this`decisions
      ensures Value() == old(Value()).(decisions := old(decisions)[id := d])
    {
      decisions := decisions[id := d];
    }
  }
}
