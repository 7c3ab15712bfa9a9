/** Fan-out: the nodes an event concerns, and no others, are sent it. */
module ArbiterFan {
  import opened Stamps
  import opened Events
  import opened Warehouse
  import opened Central
  import opened Arbiter
  import opened ArbiterRuns

  lemma MoreVerdictsKeepFan(events: Envelopes, o: Outbox, verdicts: Verdicts, verdicts': Verdicts, decisions: map<EventId, Decision>)
    requires FanOk(events, o, verdicts, decisions) && forall e :: e in verdicts ==> e in verdicts' && verdicts'[e] == verdicts[e]
    ensures FanOk(events, o, verdicts', decisions)
  {
  }

  /** A log that gains no dispatch of a transfer already received against leaves everyone told. */
  ghost predicate NoLateDispatch(events: Envelopes, events': Envelopes)
  {
    forall d, r, t :: d in events' && d !in events && Dispatches(events'[d].body, t) && r in events ==> !Receives(events[r].body, t)
  }

  lemma GrowingKeepsTold(events: Envelopes, events': Envelopes, o: Outbox, env: Envelope, rej: Option<Rejection>)
    requires Grows(events, events') && NoLateDispatch(events, events') && env.id in events && events[env.id] == env
    requires Told(events, o, env, rej)
    ensures Told(events', o, env, rej)
  {
  }

  lemma GrowingKeepsFan(events: Envelopes, events': Envelopes, o: Outbox, verdicts: Verdicts, decisions: map<EventId, Decision>,
                        env: Envelope, rej: Option<Rejection>)
    requires FanOk(events, o, verdicts, decisions) && Grows(events, events') && NoLateDispatch(events, events')
    requires EventsOk(events)
    ensures FanOk(events', o, verdicts, decisions)
    ensures env.id in events && events[env.id] == env && Told(events, o, env, rej) ==> Told(events', o, env, rej)
  {
    hide Told;
    forall t, id | (t, id) in o.enqueued && id.node != CENTRAL_NODE
      ensures Concerns(events', verdicts, t, id)
    {
      assert Concerns(events, verdicts, t, id);
    }
    forall e | e in decisions
      ensures Told(events', o, events'[e], verdicts[e])
    {
      GrowingKeepsTold(events, events', o, events[e], verdicts[e]);
    }
    if env.id in events && events[env.id] == env && Told(events, o, env, rej) {
      GrowingKeepsTold(events, events', o, env, rej);
    }
  }

  lemma AppendKeepsFan(w: World, env: Envelope)
    requires Inv(w) && Admissible(w.store.journal.events, w.verdicts, env)
    ensures FanOk(Append(w.store.journal, env).events, w.store.outbox, w.verdicts, w.store.decisions)
  {
    hide Judge, ReceiptsOk, TransitOk, RecordedTo, OutboxOk, JournalOk, DecisionsOk, BusyOk, WellFormed, Told, FanOk;
    var events, events' := w.store.journal.events, Append(w.store.journal, env).events;
    assert env.id in w.verdicts ==> VerdictStands(events, w.store.books, w.verdicts, env.id);
    assert NoLateDispatch(events, events');
    GrowingKeepsFan(events, events', w.store.outbox, w.verdicts, w.store.decisions, env, None);
  }

  lemma {:induction false} EnqueuedExactly(o: Outbox, t: NodeId, envs: seq<Envelope>)
    ensures o.enqueued <= Enqueue(o, t, envs).enqueued
    ensures forall x, id :: (x, id) in Enqueue(o, t, envs).enqueued <==> (x, id) in o.enqueued || (x == t && exists e :: e in envs && e.id == id)
  {
    if envs != [] {
      var init, last := envs[..|envs| - 1], envs[|envs| - 1];
      EnqueuedExactly(o, t, init);
      assert forall e :: e in envs <==> e in init || e == last;
    }
  }

  lemma MoreEnqueuedKeepsTold(events: Envelopes, o: Outbox, o': Outbox, env: Envelope, rej: Option<Rejection>)
    requires Told(events, o, env, rej) && o.enqueued <= o'.enqueued
    ensures Told(events, o', env, rej)
  {
  }

  /** Queueing central's own events concerns nobody's fan-out. */
  lemma QueueKeepsFan(events: Envelopes, o: Outbox, verdicts: Verdicts, decisions: map<EventId, Decision>, env: Envelope,
                      rej: Option<Rejection>, t: NodeId, comps: seq<Envelope>)
    requires FanOk(events, o, verdicts, decisions) && forall i :: 0 <= i < |comps| ==> comps[i].id.node == CENTRAL_NODE
    ensures FanOk(events, Enqueue(o, t, comps), verdicts, decisions)
    ensures Told(events, o, env, rej) ==> Told(events, Enqueue(o, t, comps), env, rej)
  {
    hide Told, Concerns, Enqueue;
    var o' := Enqueue(o, t, comps);
    EnqueuedExactly(o, t, comps);
    forall e | e in decisions
      ensures Told(events, o', events[e], verdicts[e])
    {
      MoreEnqueuedKeepsTold(events, o, o', events[e], verdicts[e]);
    }
    if Told(events, o, env, rej) { MoreEnqueuedKeepsTold(events, o, o', env, rej); }
  }

  // ---------------------------------------------------------------- the fan-out itself

  lemma {:induction false} SourceFrom(transit: map<(string, Key), Row>, t: string, ms: seq<Movement>)
    ensures SourceOf(transit, t, ms).Some? ==> exists k :: (t, k) in transit && transit[(t, k)].source == SourceOf(transit, t, ms).value
    ensures SourceOf(transit, t, ms).None? ==> forall i :: 0 <= i < |ms| ==> (t, KeyOf(ms[i])) !in transit
  {
    if ms != [] && (t, KeyOf(ms[0])) !in transit {
      SourceFrom(transit, t, ms[1..]);
      assert forall i :: 1 <= i < |ms| ==> ms[i] == ms[1..][i - 1];
    }
  }

  /** A row's source is the source of the transfer's one dispatch. */
  lemma RowSource(events: Envelopes, b: Books, t: string, k: Key)
    requires EventsOk(events) && TransitOk(events, b) && (t, k) in b.transit
    ensures exists d :: d in events && Dispatches(events[d].body, t) && events[d].body.source == b.transit[(t, k)].source
    ensures forall d :: d in events && Dispatches(events[d].body, t) ==> events[d].body.source == b.transit[(t, k)].source
  {
  }

  /** A receipt is sent to the source of its transfer as soon as it shares a line with the dispatch. */
  lemma ReceiptTells(events: Envelopes, b: Books, verdicts: Verdicts, env: Envelope)
    requires BooksOk(events, b, verdicts) && Admissible(events, verdicts, env) && env.body.TransferReceived?
    ensures var src := SourceOf(b.transit, env.body.transfer, env.body.lines);
            && (src.Some? ==> exists d :: d in events && Dispatches(events[d].body, env.body.transfer) && events[d].body.source == src.value)
            && (forall d :: d in events && Dispatches(events[d].body, env.body.transfer) && SharesKey(env.body.lines, events[d].body.lines)
                            ==> src == Some(events[d].body.source))
  {
    hide Judge, ReceiptsOk, TransitOk, WellFormed;
    var t, lines := env.body.transfer, env.body.lines;
    var src := SourceOf(b.transit, t, lines);
    SourceFrom(b.transit, t, lines);
    if src.Some? {
      var k :| (t, k) in b.transit && b.transit[(t, k)].source == src.value;
      RowSource(events, b, t, k);
    }
    forall d | d in events && Dispatches(events[d].body, t) && SharesKey(lines, events[d].body.lines)
      ensures src.Some?
    {
      assert VerdictStands(events, b, verdicts, d);
      var i, j :| 0 <= i < |lines| && 0 <= j < |events[d].body.lines| && KeyOf(lines[i]) == KeyOf(events[d].body.lines[j]);
      assert (t, KeyOf(events[d].body.lines[j])) in b.transit;
    }
  }

  /** The fan-out of an attempt tells exactly those the event concerns. */
  lemma FanTells(events: Envelopes, b: Books, o: Outbox, verdicts: Verdicts, decisions: map<EventId, Decision>, env: Envelope, rej: Option<Rejection>)
    requires BooksOk(events, b, verdicts) && Admissible(events, verdicts, env) && FanOk(events, o, verdicts, decisions)
    requires env.id in events && env.id in verdicts && verdicts[env.id] == rej
    ensures FanOk(events, FanOut(o, b, env, rej), verdicts, decisions) && Told(events, FanOut(o, b, env, rej), env, rej)
  {
    hide BooksOk, Timely, WellFormed, SharesKey, Enqueue, SourceOf;
    var o', target := FanOut(o, b, env, rej), FanTarget(b, env.body, rej);
    if env.body.TransferReceived? { ReceiptTells(events, b, verdicts, env); }
    if target.Some? { EnqueuedExactly(o, target.value, [env]); }
    assert target.Some? ==> Concerns(events, verdicts, target.value, env.id);
    assert Told(events, o', env, rej);
    hide Told, Concerns;
    forall e | e in decisions
      ensures Told(events, o', events[e], verdicts[e])
    {
      MoreEnqueuedKeepsTold(events, o, o', events[e], verdicts[e]);
    }
  }
}
