/** How the log, the queues and the decisions evolve, and with them the whole invariant: every
    step of every run keeps it.
 */
module ArbiterAnswers {
  import opened Stamps
  import opened Clock
  import opened Events
  import opened Warehouse
  import opened Central
  import opened Arbiter
  import opened ArbiterRuns
  import opened ArbiterBooks
  import opened ArbiterFan

  // ---------------------------------------------------------------- the books under a growing log

  lemma {:induction false} FoldedSumExtra(folded: map<(EventId, Key), real>, ids: set<EventId>, ids': set<EventId>, k: Key)
    requires ids <= ids' && forall id :: id in ids' && id !in ids ==> Own(folded, id, k) == 0.0
    ensures FoldedSum(folded, ids', k) == FoldedSum(folded, ids, k)
    decreases |ids'|
  {
    if ids' != ids {
      var x :| x in ids' && x !in ids;
      FoldedSumAt(folded, ids', x, k);
      FoldedSumExtra(folded, ids, ids' - {x}, k);
    }
  }

  lemma GrowingKeepsRow(events: Envelopes, events': Envelopes, b: Books, t: string, k: Key)
    requires TransitOk(events, b) && Grows(events, events') && (t, k) in b.transit
    ensures RowOk(events', b, t, k)
  {
    hide QtyAt;
    var row := b.transit[(t, k)];
    assert RowOk(events, b, t, k);
    var d :| Backs(events, d, t, k, row);
    assert Backs(events', d, t, k, row);
    var ids, ids' := ReceiptsOf(events, t), ReceiptsOf(events', t);
    forall id | id in ids' && id !in ids
      ensures Own(b.folded, id, k) == 0.0
    {
      assert (id, k) in b.folded ==> FoldOk(events, b, id, k);
    }
    FoldedSumExtra(b.folded, ids, ids', k);
    assert RefusedDispatch(events, b.refs, t) ==> RefusedDispatch(events', b.refs, t);
  }

  lemma GrowingKeepsBooks(events: Envelopes, events': Envelopes, b: Books, verdicts: Verdicts)
    requires BooksOk(events, b, verdicts) && Grows(events, events') && EventsOk(events')
    ensures BooksOk(events', b, verdicts)
  {
    hide Judge, FoldedSum, QtyAt, RowOk, EventsOk, PoSum, OrdersKept, NotesUnique, RecordedTo;
    forall t, k | (t, k) in b.transit
      ensures RowOk(events', b, t, k)
    {
      GrowingKeepsRow(events, events', b, t, k);
    }
    forall id, k | (id, k) in b.folded
      ensures FoldOk(events', b, id, k)
    {
      assert FoldOk(events, b, id, k);
    }
    forall id | id in b.receipts
      ensures ReceiptOk(events', b, id)
    {
      assert ReceiptOk(events, b, id);
    }
    forall id | id in verdicts
      ensures VerdictStands(events', b, verdicts, id)
    {
      assert VerdictStands(events, b, verdicts, id);
    }
  }

  lemma GrowingKeepsAnswers(events: Envelopes, events': Envelopes, e: EventId, r: Rejection, comps: seq<Envelope>)
    requires AnswersOk(events, e, r, comps) && Grows(events, events')
    ensures AnswersOk(events', e, r, comps)
  {
  }

  // ---------------------------------------------------------------- emitting

  lemma {:induction false} StoredHas(events: Envelopes, envs: seq<Envelope>)
    requires forall i :: 0 <= i < |envs| ==> envs[i].id !in events
    requires forall i, j :: 0 <= i < j < |envs| ==> envs[i].id != envs[j].id
    ensures Grows(events, Stored(events, envs))
    ensures forall i :: 0 <= i < |envs| ==> envs[i].id in Stored(events, envs) && Stored(events, envs)[envs[i].id] == envs[i]
    ensures forall id :: id in Stored(events, envs) ==> id in events || exists i :: 0 <= i < |envs| && envs[i].id == id
  {
    if envs != [] {
      var init, last := envs[..|envs| - 1], envs[|envs| - 1];
      StoredHas(events, init);
      forall i | 0 <= i < |envs|
        ensures envs[i].id in Stored(events, envs) && Stored(events, envs)[envs[i].id] == envs[i]
      {
        if i < |init| { assert init[i] == envs[i]; }
      }
      forall id | id in Stored(events, envs) && id !in events
        ensures exists i :: 0 <= i < |envs| && envs[i].id == id
      {
        if id == last.id {
          assert envs[|envs| - 1].id == id;
        } else {
          var i :| 0 <= i < |init| && init[i].id == id;
          assert envs[i].id == id;
        }
      }
    }
  }

  lemma {:induction false} ClockRises(c: Hlc, at: Hlc, now: Int64, n: nat, i: nat, j: nat)
    requires ClockRoom(c, at, now, n) && i < j <= n
    ensures Before(ClockAfter(c, at, now, i), ClockAfter(c, at, now, j))
    ensures Before(at, ClockAfter(c, at, now, j))
    decreases j
  {
    hide Before, MergeStamps, Saturated;
    var prev := ClockAfter(c, at, now, j - 1);
    assert !Saturated(prev);
    MergeSortsAfterIff(prev, at, now, CENTRAL_NODE);
    if i < j - 1 {
      ClockRises(c, at, now, n, i, j - 1);
      BeforeTransitive(ClockAfter(c, at, now, i), prev, ClockAfter(c, at, now, j));
    }
  }

  /** The log after an emission: what it had, and the answers, which carry central's ids. */
  ghost predicate Extended(events: Envelopes, events': Envelopes, comps: seq<Envelope>)
  {
    && Grows(events, events')
    && (forall id :: id in events' && id !in events ==> events'[id] in comps)
    && (forall i :: 0 <= i < |comps| ==> comps[i].id in events' && events'[comps[i].id] == comps[i])
    && (forall i :: 0 <= i < |comps| ==> comps[i].id.node == CENTRAL_NODE)
    && (forall id :: id in events' ==> events'[id].id == id)
  }

  /** What central seals for a rejection answers it draft by draft, each stamp after the cause and
      after the one before. */
  lemma SealedAnswers(j: Journal, cause: Envelope, r: Rejection, now: Int64)
    requires cause.id in j.events && j.events[cause.id] == cause && ClockRoom(j.clock, cause.hlc, now, |r.events|)
    requires forall c :: c in j.events && c.node == CENTRAL_NODE ==> c.seqNo <= j.issued
    requires forall id :: id in j.events ==> j.events[id].id == id
    ensures var comps, j' := Sealed(j, r.events, cause.id, cause.hlc, now), EmitCentral(j, r.events, cause.id, cause.hlc, now);
            && AnswersOk(j'.events, cause.id, r, comps) && Extended(j.events, j'.events, comps)
            && j'.issued == j.issued + |r.events| && forall i :: 0 <= i < |comps| ==> comps[i].id.seqNo <= j'.issued
  {
    hide Before, ClockAfter, ClockRoom, Stored;
    var comps := Sealed(j, r.events, cause.id, cause.hlc, now);
    StoredHas(j.events, comps);
    SealedStamps(j, cause, r, now);
    forall id | id in Stored(j.events, comps) && id !in j.events
      ensures Stored(j.events, comps)[id] in comps && Stored(j.events, comps)[id].id == id
    {
      var i :| 0 <= i < |comps| && comps[i].id == id;
      assert Stored(j.events, comps)[id] == comps[i];
    }
  }

  lemma SealedStamps(j: Journal, cause: Envelope, r: Rejection, now: Int64)
    requires ClockRoom(j.clock, cause.hlc, now, |r.events|)
    ensures var comps := Sealed(j, r.events, cause.id, cause.hlc, now);
            && (forall i :: 0 <= i < |comps| ==> Before(cause.hlc, comps[i].hlc))
            && (forall i, k :: 0 <= i < k < |comps| ==> Before(comps[i].hlc, comps[k].hlc))
  {
    hide Before, ClockAfter, ClockRoom;
    var comps := Sealed(j, r.events, cause.id, cause.hlc, now);
    forall i | 0 <= i < |comps|
      ensures Before(cause.hlc, comps[i].hlc)
    {
      ClockRises(j.clock, cause.hlc, now, |r.events|, i, i + 1);
    }
    forall i, k | 0 <= i < k < |comps|
      ensures Before(comps[i].hlc, comps[k].hlc)
    {
      ClockRises(j.clock, cause.hlc, now, |r.events|, i + 1, k + 1);
    }
  }

  lemma {:induction false} UnknownDrafts(refs: Refs, ms: seq<Movement>)
    ensures forall d :: d in UnknownEvents(refs, ms) ==> d.body.StockAdjusted?
  {
    if ms != [] { UnknownDrafts(refs, ms[..|ms| - 1]); }
  }

  lemma {:induction false} ReturnDrafts(t: string, ms: seq<Movement>)
    ensures forall d :: d in ReturnEvents(t, ms) ==> d.body.StockAdjusted?
  {
    if ms != [] { ReturnDrafts(t, ms[..|ms| - 1]); }
  }

  lemma {:induction false} OverDrafts(b: Books, id: EventId, t: string, ms: seq<Movement>)
    ensures forall d :: d in OverEvents(b, id, t, ms) ==> d.body.StockAdjusted?
  {
    hide Over;
    if ms != [] { OverDrafts(b, id, t, ms[..|ms| - 1]); }
  }

  /** Compensations adjust stock and reverse paperwork; they never open a transfer or a receipt. */
  lemma JudgedDrafts(b: Books, env: Envelope)
    requires Judge(b, env).Some?
    ensures forall d :: d in Judge(b, env).value.events ==> d.body.StockAdjusted? || d.body.ReceiptLineRecorded?
  {
    hide UnknownEvents, ReturnEvents, OverEvents, FirstSeen, Excess;
    UnknownDrafts(b.refs, MovesOf(env.body));
    if env.body.TransferDispatched? { ReturnDrafts(env.body.transfer, env.body.lines); }
    if env.body.TransferReceived? { OverDrafts(b, env.id, env.body.transfer, env.body.lines); }
  }

  // ---------------------------------------------------------------- replaying

  /** A replay-ordered list of the answers is the list they were emitted in. */
  lemma {:induction false} OneOrder(a: seq<Envelope>, b: seq<Envelope>)
    requires forall e :: e in a <==> e in b
    requires forall i, j :: 0 <= i < j < |a| ==> Before(a[i].hlc, a[j].hlc)
    requires forall i, j :: 0 <= i < j < |b| ==> b[i] != b[j] && !Replays(b[j], b[i])
    ensures a == b
    decreases |a|
  {
    if a == [] {
      Listed(b);
    } else {
      StampsDiffer(a);
      assert a[0] in b;
      var i :| 0 <= i < |b| && b[i] == a[0];
      assert b[0] in a;
      var j :| 0 <= j < |a| && a[j] == b[0];
      var low, first := b[i], b[0];
      assert i > 0 && j > 0 ==> Replays(low, first);
      assert a[0] == b[0];
      forall e
        ensures e in a[1..] <==> e in b[1..]
      {
        TailHas(a, e);
        TailHas(b, e);
      }
      OneOrder(a[1..], b[1..]);
    }
  }

  lemma Listed(s: seq<Envelope>)
    ensures s == [] || exists e :: e in s
  {
    if s != [] { assert s[0] in s; }
  }

  lemma TailHas(s: seq<Envelope>, e: Envelope)
    requires s != [] && forall i, j :: 0 <= i < j < |s| ==> s[i] != s[j]
    ensures e in s[1..] <==> e in s && e != s[0]
  {
  }

  lemma StampsDiffer(a: seq<Envelope>)
    requires forall i, j :: 0 <= i < j < |a| ==> Before(a[i].hlc, a[j].hlc)
    ensures forall i, j :: 0 <= i < j < |a| ==> a[i] != a[j]
  {
    forall i, j | 0 <= i < j < |a|
      ensures a[i] != a[j]
    {
      BeforeTotal(a[i].hlc, a[j].hlc);
    }
  }

  /** The compensations found in the log are exactly the ones emitted, in the order emitted. */
  lemma FoundIsEmitted(j: Journal, verdicts: Verdicts, answers: Answers, e: EventId, comps: seq<Envelope>)
    requires JournalOk(j, verdicts, answers) && CompensationsOf(j.events, e, comps)
    requires forall id :: id in j.events ==> j.events[id].id == id
    ensures e in answers ==> comps == answers[e]
    ensures e !in answers ==> comps == []
  {
    hide Before, Replays;
    if e in answers {
      var own := answers[e];
      assert AnswersOk(j.events, e, verdicts[e].value, own);
      forall x
        ensures x in own <==> x in comps
      {
        if x in own {
          var i :| 0 <= i < |own| && own[i] == x;
          assert Answered(j.events, e, verdicts[e].value.events[i], own[i]);
          assert x in Compensations(j.events, e);
        }
        if x in comps {
          assert x in Compensations(j.events, e);
        }
      }
      OneOrder(own, comps);
    } else {
      assert Compensations(j.events, e) == {};
      Listed(comps);
    }
  }

  // ---------------------------------------------------------------- queueing

  /** What may go into the queue of t. */
  ghost predicate Addressed(events: Envelopes, t: NodeId, env: Envelope)
  {
    && env.id in events && events[env.id] == env
    && (env.causation.Some? ==> env.causation.value.node == t)
  }

  lemma EnqueueOneKeepsOutbox(events: Envelopes, o: Outbox, t: NodeId, env: Envelope)
    requires OutboxOk(events, o) && Addressed(events, t, env)
    ensures OutboxOk(events, EnqueueOne(o, t, env)) && (t, env.id) in EnqueueOne(o, t, env).enqueued
  {
    var o' := EnqueueOne(o, t, env);
    if (t, env.id) !in o.enqueued {
      var q := QueueOf(o, t);
      assert forall t' :: QueueOf(o', t') == if t' == t then q + [Outbound(o.nextOrd + 1, env)] else QueueOf(o, t');
      assert !InQueue(o, t, env.id);
      forall t', id
        ensures (t', id) in o'.enqueued <==> InQueue(o', t', id)
      {
        if t' == t && id == env.id {
          assert QueueOf(o', t)[|q|].env.id == id;
        } else if InQueue(o, t', id) {
          var i :| 0 <= i < |QueueOf(o, t')| && QueueOf(o, t')[i].env.id == id;
          assert QueueOf(o', t')[i].env.id == id;
        }
      }
    }
  }

  lemma {:induction false} EnqueueKeepsOutbox(events: Envelopes, o: Outbox, t: NodeId, envs: seq<Envelope>)
    requires OutboxOk(events, o) && forall i :: 0 <= i < |envs| ==> Addressed(events, t, envs[i])
    ensures OutboxOk(events, Enqueue(o, t, envs)) && AllQueued(Enqueue(o, t, envs), t, envs)
    ensures o.enqueued <= Enqueue(o, t, envs).enqueued
  {
    hide OutboxOk;
    if envs != [] {
      var init, last := envs[..|envs| - 1], envs[|envs| - 1];
      EnqueueKeepsOutbox(events, o, t, init);
      var o1 := Enqueue(o, t, init);
      EnqueueOneKeepsOutbox(events, o1, t, last);
      assert o1.enqueued <= EnqueueOne(o1, t, last).enqueued;
      forall i | 0 <= i < |envs|
        ensures (t, envs[i].id) in EnqueueOne(o1, t, last).enqueued
      {
        if i < |init| { assert init[i] == envs[i]; }
      }
    }
  }

  lemma GrowingKeepsOutbox(events: Envelopes, events': Envelopes, o: Outbox)
    requires OutboxOk(events, o) && Grows(events, events')
    ensures OutboxOk(events', o)
  {
  }

  lemma MoreQueuedKeepsDecisions(s: Store, o': Outbox, verdicts: Verdicts, answers: Answers)
    requires DecisionsOk(s, verdicts, answers) && s.outbox.enqueued <= o'.enqueued
    ensures DecisionsOk(s.(outbox := o'), verdicts, answers)
  {
  }

  // ---------------------------------------------------------------- every step keeps the invariant

  lemma AppendKeepsJournal(j: Journal, env: Envelope, verdicts: Verdicts, answers: Answers)
    requires JournalOk(j, verdicts, answers) && env.causation.None? && env.id.node != CENTRAL_NODE
    ensures JournalOk(Append(j, env), verdicts, answers)
  {
  }

  lemma BeginKeepsInv(w: World, w': World, env: Envelope)
    requires Inv(w) && Begin(w, w', env)
    ensures Inv(w')
  {
    hide Judge, EventsOk, ReceiptsOk, TransitOk, VerdictsOk, OutboxOk, JournalOk, WellFormed, Timely, RecordedTo, FanOk;
    var events, events' := w.store.journal.events, w'.store.journal.events;
    AppendKeepsEvents(w, env);
    GrowingKeepsBooks(events, events', w.store.books, w.verdicts);
    GrowingKeepsOutbox(events, events', w.store.outbox);
    AppendKeepsJournal(w.store.journal, env, w.verdicts, w.answers);
    AppendKeepsFan(w, env);
    assert forall e :: e in w'.store.decisions ==> DecidedOk(w.store, w.verdicts, w.answers, e);
    NothingRecordedYet(w.store.books, env, Judge(w.store.books, env));
  }

  lemma NothingRecordedYet(b: Books, env: Envelope, rej: Option<Rejection>)
    ensures RecordedTo(b, env, rej, 0)
  {
  }

  lemma AppendKeepsEvents(w: World, env: Envelope)
    requires EventsOk(w.store.journal.events)
    requires Admissible(w.store.journal.events, w.verdicts, env)
    ensures EventsOk(Append(w.store.journal, env).events)
    ensures Timely(Append(w.store.journal, env).events, w.verdicts, env)
  {
    hide WellFormed;
    var events' := Append(w.store.journal, env).events;
    forall d, e, t | d in events' && e in events' && Dispatches(events'[d].body, t) && Dispatches(events'[e].body, t)
      ensures d == e
    {
      if d != env.id && e != env.id { assert d in w.store.journal.events && e in w.store.journal.events; }
    }
  }

  lemma RecordKeepsInv(w: World, w': World, i: nat)
    requires Inv(w) && Record(w, w', i)
    ensures Inv(w')
  {
    hide Judge, BooksOk, OutboxOk, AnswersOk, RecordStep, RecordedTo, Timely, WellFormed, FanOk, Told;
    var a := w.busy.value;
    RecordStepKeepsBooks(w.store.journal.events, w.store.books, w.verdicts, a.env, a.rej, i);
    assert forall e :: e in w'.store.decisions ==> DecidedOk(w.store, w.verdicts, w.answers, e);
  }

  lemma KnownVerdict(w: World, id: EventId)
    requires Inv(w) && id in w.verdicts
    ensures id in w.store.journal.events && w.store.journal.events[id].id == id && id.node != CENTRAL_NODE
    ensures Judge(w.store.books, w.store.journal.events[id]) == w.verdicts[id]
    ensures RecordedTo(w.store.books, w.store.journal.events[id], w.verdicts[id],
                       RecordSteps(w.store.journal.events[id].body, w.verdicts[id]))
  {
    hide Judge, ReceiptsOk, TransitOk, RecordedTo, JournalOk, OutboxOk, DecisionsOk, BusyOk;
    assert VerdictStands(w.store.journal.events, w.store.books, w.verdicts, id);
  }

  lemma SettleKeepsInv(w: World, w': World)
    requires Inv(w) && Settle(w, w')
    ensures Inv(w')
  {
    hide Judge, EventsOk, ReceiptsOk, TransitOk, OutboxOk, AnswersOk, RecordedTo, WellFormed, FanOk, Told;
    var a := w.busy.value;
    var id := a.env.id;
    assert w.store.journal.events[id] == a.env;
    MoreVerdictsKeepFan(w.store.journal.events, w.store.outbox, w.verdicts, w'.verdicts, w.store.decisions);
    forall e | e in w'.verdicts
      ensures VerdictStands(w.store.journal.events, w.store.books, w'.verdicts, e)
    {
      assert e in w.verdicts ==> VerdictStands(w.store.journal.events, w.store.books, w.verdicts, e);
    }
    assert id !in w.answers || id in w.verdicts;
    assert forall e :: e in w'.store.decisions ==> DecidedOk(w.store, w.verdicts, w.answers, e);
  }

  lemma FanKeepsInv(w: World, w': World)
    requires Inv(w) && Fan(w, w')
    ensures Inv(w')
  {
    hide Judge, BooksOk, OutboxOk, AnswersOk, DecisionsOk, FanTarget, Timely, WellFormed, Enqueue, FanOk, Told;
    var a, s := w.busy.value, w.store;
    var target := FanTarget(s.books, a.env.body, a.rej);
    KnownVerdict(w, a.env.id);
    FanTells(s.journal.events, s.books, s.outbox, w.verdicts, s.decisions, a.env, a.rej);
    if target.Some? {
      assert Addressed(s.journal.events, target.value, a.env);
      assert forall i :: 0 <= i < |[a.env]| ==> Addressed(s.journal.events, target.value, [a.env][i]);
      EnqueueKeepsOutbox(s.journal.events, s.outbox, target.value, [a.env]);
      MoreQueuedKeepsDecisions(s, w'.store.outbox, w.verdicts, w.answers);
    } else {
      MoreQueuedKeepsDecisions(s, s.outbox, w.verdicts, w.answers);
    }
  }

  lemma AcceptKeepsInv(w: World, w': World)
    requires Inv(w) && Accept(w, w')
    ensures Inv(w')
  {
    hide Judge, BooksOk, OutboxOk, AnswersOk, Timely, WellFormed, Told, Concerns;
    var a := w.busy.value;
    assert w.store.journal.events[a.env.id] == a.env;
    KnownVerdict(w, a.env.id);
    assert forall e :: e in w.store.decisions ==> DecidedOk(w.store, w.verdicts, w.answers, e);
  }

  lemma RejectKeepsInv(w: World, w': World)
    requires Inv(w) && Reject(w, w')
    ensures Inv(w')
  {
    hide Judge, BooksOk, OutboxOk, AnswersOk, Timely, WellFormed, Told, Concerns;
    var a := w.busy.value;
    assert w.store.journal.events[a.env.id] == a.env;
    KnownVerdict(w, a.env.id);
    assert forall e :: e in w.store.decisions ==> DecidedOk(w.store, w.verdicts, w.answers, e);
  }

  lemma ReplayKeepsInv(w: World, w': World, comps: seq<Envelope>)
    requires Inv(w) && Replay(w, w', comps)
    ensures Inv(w')
  {
    hide Judge, ReceiptsOk, TransitOk, VerdictsOk, OutboxOk, CompensationsOf, AnswersOk, WellFormed, Timely, FanOk, Told;
    var a := w.busy.value;
    FoundIsEmitted(w.store.journal, w.verdicts, w.answers, a.env.id, comps);
    assert forall e :: e in w'.store.decisions ==> DecidedOk(w.store, w.verdicts, w.answers, e);
  }

  lemma BooksEvents(events: Envelopes, b: Books, verdicts: Verdicts)
    requires BooksOk(events, b, verdicts)
    ensures EventsOk(events)
  {
  }

  lemma AnswersAreCentral(j: Journal, verdicts: Verdicts, answers: Answers, e: EventId)
    requires JournalOk(j, verdicts, answers) && e in answers
    requires EventsOk(j.events)
    ensures forall i :: 0 <= i < |answers[e]| ==> answers[e][i].id.node == CENTRAL_NODE
  {
  }

  lemma QueueKeepsInv(w: World, w': World)
    requires Inv(w) && Queue(w, w')
    ensures Inv(w')
  {
    hide Judge, BooksOk, OutboxOk, DecisionsOk, Timely, WellFormed, Enqueue, Before, FanOk, Told;
    var a, s := w.busy.value, w.store;
    var comps := a.phase.comps;
    assert AnswersOk(s.journal.events, a.env.id, w.verdicts[a.env.id].value, comps);
    forall i | 0 <= i < |comps|
      ensures Addressed(s.journal.events, a.env.id.node, comps[i])
    {
      assert Answered(s.journal.events, a.env.id, w.verdicts[a.env.id].value.events[i], comps[i]);
    }
    EnqueueKeepsOutbox(s.journal.events, s.outbox, a.env.id.node, comps);
    BooksEvents(s.journal.events, s.books, w.verdicts);
    AnswersAreCentral(w.store.journal, w.verdicts, w.answers, a.env.id);
    QueueKeepsFan(s.journal.events, s.outbox, w.verdicts, s.decisions, a.env, a.rej, a.env.id.node, comps);
    MoreQueuedKeepsDecisions(s, w'.store.outbox, w.verdicts, w.answers);
  }

  lemma AnswersKeepEvents(events: Envelopes, events': Envelopes, comps: seq<Envelope>, env: Envelope, verdicts: Verdicts)
    requires EventsOk(events) && Extended(events, events', comps) && Admissible(events, verdicts, env)
    requires forall i :: 0 <= i < |comps| ==> comps[i].body.StockAdjusted? || comps[i].body.ReceiptLineRecorded?
    ensures EventsOk(events') && Timely(events', verdicts, env)
  {
    hide WellFormed;
    assert forall id :: id in events' && id !in events ==> exists i :: 0 <= i < |comps| && comps[i] == events'[id];
  }

  lemma AnswersKeepJournal(j: Journal, j': Journal, verdicts: Verdicts, answers: Answers, e: EventId, comps: seq<Envelope>)
    requires JournalOk(j, verdicts, answers) && Extended(j.events, j'.events, comps)
    requires e in verdicts && verdicts[e].Some? && AnswersOk(j'.events, e, verdicts[e].value, comps)
    requires CompensationsOf(j.events, e, []) && j.issued <= j'.issued
    requires forall i :: 0 <= i < |comps| ==> comps[i].id.seqNo <= j'.issued
    ensures JournalOk(j', verdicts, answers[e := comps])
  {
    hide Before;
    forall d | d in answers && d != e
      ensures AnswersOk(j'.events, d, verdicts[d].value, answers[d])
    {
      GrowingKeepsAnswers(j.events, j'.events, d, verdicts[d].value, answers[d]);
    }
    hide AnswersOk;
    forall c | c in j'.events && j'.events[c].causation.Some?
      ensures j'.events[c].causation.value in answers[e := comps]
      ensures j'.events[c] in answers[e := comps][j'.events[c].causation.value]
    {
      if c in j.events {
        assert j.events[c] in Compensations(j.events, j.events[c].causation.value);
      } else {
        var i :| 0 <= i < |comps| && comps[i] == j'.events[c];
        AnswersCause(j'.events, e, verdicts[e].value, comps, i);
      }
    }
    forall c | c in j'.events && c.node == CENTRAL_NODE
      ensures c.seqNo <= j'.issued
    {
      if c !in j.events { var i :| 0 <= i < |comps| && comps[i] == j'.events[c]; }
    }
  }

  lemma AnswersCause(events: Envelopes, e: EventId, r: Rejection, comps: seq<Envelope>, i: nat)
    requires AnswersOk(events, e, r, comps) && i < |comps|
    ensures comps[i].causation == Some(e) && comps[i].body == r.events[i].body
    ensures comps[i].id in events && events[comps[i].id] == comps[i]
  {
  }

  lemma EmitKeepsJournal(j: Journal, b: Books, verdicts: Verdicts, answers: Answers, env: Envelope, r: Rejection, now: Int64)
    requires EventsOk(j.events) && JournalOk(j, verdicts, answers) && Admissible(j.events, verdicts, env)
    requires env.id in j.events && env.id in verdicts && verdicts[env.id] == Some(r) && Judge(b, env) == Some(r)
    requires CompensationsOf(j.events, env.id, []) && ClockRoom(j.clock, env.hlc, now, |r.events|)
    ensures var comps, j' := Sealed(j, r.events, env.id, env.hlc, now), EmitCentral(j, r.events, env.id, env.hlc, now);
            && Grows(j.events, j'.events) && EventsOk(j'.events) && Timely(j'.events, verdicts, env)
            && JournalOk(j', verdicts, answers[env.id := comps])
            && (forall d, t :: d in j'.events && d !in j.events ==> !Dispatches(j'.events[d].body, t))
  {
    hide Judge, AnswersOk, WellFormed, Sealed, EmitCentral, Timely, CompensationsOf, ClockRoom;
    var comps, j' := Sealed(j, r.events, env.id, env.hlc, now), EmitCentral(j, r.events, env.id, env.hlc, now);
    SealedAnswers(j, env, r, now);
    JudgedDrafts(b, env);
    forall i | 0 <= i < |comps|
      ensures comps[i].body.StockAdjusted? || comps[i].body.ReceiptLineRecorded?
    {
      AnswersCause(j'.events, env.id, r, comps, i);
      assert r.events[i] in r.events;
    }
    assert forall d :: d in j'.events && d !in j.events ==> j'.events[d] in comps;
    AnswersKeepEvents(j.events, j'.events, comps, env, verdicts);
    AnswersKeepJournal(j, j', verdicts, answers, env.id, comps);
  }

  lemma EmitKeepsInv(w: World, w': World, now: Int64)
    requires Inv(w) && Emit(w, w', now)
    ensures Inv(w')
  {
    hide Judge, ReceiptsOk, TransitOk, VerdictsOk, OutboxOk, JournalOk, WellFormed, Sealed, EmitCentral, Timely, CompensationsOf, ClockRoom,
      EventsOk, FanOk, Told;
    var a, j, j' := w.busy.value, w.store.journal, w'.store.journal;
    KnownVerdict(w, a.env.id);
    EmitKeepsJournal(j, w.store.books, w.verdicts, w.answers, a.env, a.rej.value, now);
    GrowingKeepsBooks(j.events, j'.events, w.store.books, w.verdicts);
    GrowingKeepsOutbox(j.events, j'.events, w.store.outbox);
    GrowingKeepsFan(j.events, j'.events, w.store.outbox, w.verdicts, w.store.decisions, a.env, a.rej);
    assert forall d :: d in w.store.decisions ==> DecidedOk(w.store, w.verdicts, w.answers, d);
  }

  lemma CrashKeepsInv(w: World, w': World)
    requires Inv(w) && Crash(w, w')
    ensures Inv(w')
  {
    hide BooksOk, JournalOk, OutboxOk, DecisionsOk;
  }

  /** Every store call, and a crash at any point, keeps the invariant; verdicts are never revised. */
  lemma StepKeepsInv(w: World, w': World)
    requires Inv(w) && Step(w, w')
    ensures Inv(w')
    ensures forall e :: e in w.verdicts ==> e in w'.verdicts && w'.verdicts[e] == w.verdicts[e]
    ensures w'.store.books.refs == w.store.books.refs
  {
    hide Inv, Judge, RecordStep, FanOut, Enqueue, EmitCentral, Sealed, Admissible, CompensationsOf, ClockRoom;
    if env :| Begin(w, w', env) {
      BeginKeepsInv(w, w', env);
    } else if i :| Record(w, w', i) {
      RecordKeepsInv(w, w', i);
      RecordKeepsRefs(w.store.books, w.busy.value.env, w.busy.value.rej, i);
    } else if Settle(w, w') {
      SettleKeepsInv(w, w');
    } else if Fan(w, w') {
      FanKeepsInv(w, w');
    } else if Accept(w, w') {
      AcceptKeepsInv(w, w');
    } else if now :| Emit(w, w', now) {
      EmitKeepsInv(w, w', now);
    } else if comps :| Replay(w, w', comps) {
      ReplayKeepsInv(w, w', comps);
    } else if Queue(w, w') {
      QueueKeepsInv(w, w');
    } else if Reject(w, w') {
      RejectKeepsInv(w, w');
    } else {
      CrashKeepsInv(w, w');
    }
  }

  lemma RecordKeepsRefs(b: Books, env: Envelope, rej: Option<Rejection>, i: nat)
    requires i < RecordSteps(env.body, rej)
    ensures RecordStep(b, env, rej, i).refs == b.refs
  {
  }

  lemma InitHolds(w: World)
    requires Init(w)
    ensures Inv(w)
  {
    forall o | o in w.store.books.refs.orders
      ensures PoSum(w.store.books.receipts, o.0, o.1) == 0.0
    {
    }
  }

  lemma {:induction false} RunKeepsInv(r: seq<World>, k: nat)
    requires Run(r) && k < |r|
    ensures Inv(r[k]) && r[k].store.books.refs == r[0].store.books.refs
  {
    hide Inv, Step, Init;
    if k == 0 {
      InitHolds(r[0]);
    } else {
      RunKeepsInv(r, k - 1);
      StepKeepsInv(r[k - 1], r[k]);
    }
  }
}
