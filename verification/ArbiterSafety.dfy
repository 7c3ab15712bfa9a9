/** What the invariant of arbitration is for: stable verdicts, one compensation set per event,
    orders and dispatches that are never exceeded, and what of an event is taken back.
 */
module ArbiterSafety {
  import opened Stamps
  import opened Events
  import opened Warehouse
  import opened Central
  import opened Arbiter
  import opened ArbiterRuns
  import opened ArbiterBooks
  import opened ArbiterAnswers
  import opened Sums

  // ---------------------------------------------------------------- verdicts

  lemma {:induction false} VerdictsAreKept(r: seq<World>, i: nat, j: nat, e: EventId)
    requires Run(r) && i <= j < |r| && e in r[i].verdicts
    ensures e in r[j].verdicts && r[j].verdicts[e] == r[i].verdicts[e]
    decreases j
  {
    hide Inv, Step, Init;
    if i < j {
      VerdictsAreKept(r, i, j - 1, e);
      RunKeepsInv(r, j - 1);
      StepKeepsInv(r[j - 1], r[j]);
    }
  }

  /** Once a record of an event has completed, the validators return the same rejection, draft for
      draft, in every later state of the run: between store calls, after crashes, and whatever
      was arbitrated since. An attempt in progress on the event goes by that rejection. */
  lemma VerdictIsStable(r: seq<World>, i: nat, j: nat, e: EventId)
    requires Run(r) && i <= j < |r| && e in r[i].verdicts
    ensures e in r[j].store.journal.events
    ensures Judge(r[j].store.books, r[j].store.journal.events[e]) == r[i].verdicts[e]
    ensures r[j].busy.Some? && r[j].busy.value.env.id == e ==> r[j].busy.value.rej == r[i].verdicts[e]
  {
    hide Inv, Step, Init, Judge;
    VerdictsAreKept(r, i, j, e);
    RunKeepsInv(r, j);
    KnownVerdict(r[j], e);
    if r[j].busy.Some? { BusyVerdict(r[j]); }
  }

  lemma BusyVerdict(w: World)
    requires Inv(w) && w.busy.Some?
    ensures var a := w.busy.value;
            && a.env.id in w.store.journal.events && w.store.journal.events[a.env.id] == a.env
            && a.rej == Judge(w.store.books, a.env)
  {
    hide Judge, BooksOk, JournalOk, OutboxOk, DecisionsOk, PhaseOk, Timely, WellFormed;
  }

  // The rules, each stated by itself over the fields of the books.

  /** Some movement is of a SKU the item master does not have, or has deleted. */
  ghost predicate BreaksSku(b: Books, env: Envelope)
  {
    || (env.body.GoodsReceived? && (env.body.move.sku !in b.refs.items || b.refs.items[env.body.move.sku]))
    || ((env.body.TransferDispatched? || env.body.TransferReceived?)
        && exists i :: 0 <= i < |env.body.lines| && (env.body.lines[i].sku !in b.refs.items || b.refs.items[env.body.lines[i].sku]))
  }

  /** Another recorded receipt names the same delivery note and SKU. */
  ghost predicate BreaksNote(b: Books, env: Envelope)
  {
    env.body.GoodsReceived? && exists id :: id in b.receipts && id != env.id && b.receipts[id].note == env.body.note && b.receipts[id].sku == env.body.move.sku
  }

  /** With what other events have recorded against the order line, the receipt passes what was ordered. */
  ghost predicate BreaksOrder(b: Books, env: Envelope)
  {
    && env.body.GoodsReceived? && (env.body.po, env.body.move.sku) in b.refs.orders
    && PoSum(b.receipts - {env.id}, env.body.po, env.body.move.sku) + env.body.move.qty > b.refs.orders[(env.body.po, env.body.move.sku)]
  }

  /** The destination is no node central knows, or one that refuses a SKU of the dispatch. */
  ghost predicate BreaksDestination(b: Books, env: Envelope)
  {
    && env.body.TransferDispatched?
    && (env.body.destination !in b.refs.nodes
        || exists i :: 0 <= i < |env.body.lines| && env.body.lines[i].sku in b.refs.nodes[env.body.destination])
  }

  /** Some line is more than its row still lacks, not counting what this event folded in; a line
      without a row is more than nothing. */
  ghost predicate BreaksTransit(b: Books, env: Envelope)
  {
    && env.body.TransferReceived?
    && exists i :: 0 <= i < |env.body.lines| && env.body.lines[i].qty > Lacks(b, env.id, env.body.transfer, KeyOf(env.body.lines[i]))
  }

  ghost function Lacks(b: Books, id: EventId, t: string, k: Key): real
  {
    if (t, k) !in b.transit then 0.0
    else b.transit[(t, k)].dispatched - b.transit[(t, k)].received + if (id, k) in b.folded then b.folded[(id, k)] else 0.0
  }

  lemma {:induction false} UnknownIffDead(refs: Refs, ms: seq<Movement>)
    ensures UnknownEvents(refs, ms) == [] <==> forall i :: 0 <= i < |ms| ==> Live(refs, ms[i].sku)
  {
    if ms != [] {
      var init := ms[..|ms| - 1];
      UnknownIffDead(refs, init);
      assert forall i :: 0 <= i < |init| ==> init[i] == ms[i];
    }
  }

  lemma {:induction false} OverIffMore(b: Books, id: EventId, t: string, ms: seq<Movement>)
    ensures OverEvents(b, id, t, ms) == [] <==> forall i :: 0 <= i < |ms| ==> Over(b, id, t, ms[i]) <= 0.0
  {
    hide Over;
    if ms != [] {
      var init := ms[..|ms| - 1];
      OverIffMore(b, id, t, init);
      assert forall i :: 0 <= i < |init| ==> init[i] == ms[i];
    }
  }

  lemma OverIffLacks(b: Books, id: EventId, t: string, m: Movement)
    ensures Over(b, id, t, m) > 0.0 <==> m.qty > Lacks(b, id, t, KeyOf(m))
    ensures Over(b, id, t, m) >= 0.0
  {
  }

  /** The rules are judged of an event as central knows it. */
  ghost predicate Known(w: World, env: Envelope)
  {
    Inv(w) && (env.id in w.store.journal.events ==> w.store.journal.events[env.id] == env)
  }

  lemma SkuRule(b: Books, env: Envelope)
    ensures CheckSkus(b, env).Some? <==> BreaksSku(b, env)
    ensures CheckSkus(b, env).Some? ==> CheckSkus(b, env).value.reason == UnknownSku
  {
    UnknownIffDead(b.refs, MovesOf(env.body));
    hide UnknownEvents;
    if env.body.GoodsReceived? { assert MovesOf(env.body)[0] == env.body.move; }
  }

  lemma NoteRule(b: Books, env: Envelope)
    requires NotesUnique(b)
    ensures CheckNote(b, env).Some? <==> BreaksNote(b, env)
    ensures CheckNote(b, env).Some? ==> CheckNote(b, env).value.reason == DuplicateReceipt
  {
  }

  lemma OrderRule(b: Books, env: Envelope)
    requires env.body.GoodsReceived? && env.id in b.receipts ==> b.receipts[env.id].po == env.body.po && b.receipts[env.id].sku == env.body.move.sku
    ensures CheckOrder(b, env).Some? <==> BreaksOrder(b, env)
    ensures CheckOrder(b, env).Some? ==> CheckOrder(b, env).value.reason == PoOverReceipt
  {
    hide PoSum;
    if env.body.GoodsReceived? {
      if env.id in b.receipts {
        PoSumAt(b.receipts, env.id, env.body.po, env.body.move.sku);
      } else {
        assert b.receipts - {env.id} == b.receipts;
      }
    }
  }

  lemma DestinationRule(b: Books, env: Envelope)
    ensures CheckDestination(b, env).Some? <==> BreaksDestination(b, env)
    ensures CheckDestination(b, env).Some? ==> CheckDestination(b, env).value.reason == TransferRejected
  {
  }

  lemma TransitRule(b: Books, env: Envelope)
    ensures CheckReceipt(b, env).Some? <==> BreaksTransit(b, env)
    ensures CheckReceipt(b, env).Some? ==> CheckReceipt(b, env).value.reason == TransferOverReceipt
  {
    hide Over, Lacks;
    if env.body.TransferReceived? {
      OverIffMore(b, env.id, env.body.transfer, env.body.lines);
      forall i | 0 <= i < |env.body.lines|
        ensures Over(b, env.id, env.body.transfer, env.body.lines[i]) <= 0.0 <==> env.body.lines[i].qty <= Lacks(b, env.id, env.body.transfer, KeyOf(env.body.lines[i]))
      {
        OverIffLacks(b, env.id, env.body.transfer, env.body.lines[i]);
      }
    }
  }

  /** An event is rejected exactly when it breaks a rule, and the reason is the first rule it
      breaks in the order the chain runs. */
  lemma FirstRuleBrokenDecides(w: World, env: Envelope)
    requires Known(w, env)
    ensures var b := w.store.books;
            var r := Judge(b, env);
            && (r.Some? <==> BreaksSku(b, env) || BreaksNote(b, env) || BreaksOrder(b, env) || BreaksDestination(b, env) || BreaksTransit(b, env))
            && (BreaksSku(b, env) ==> r.value.reason == UnknownSku)
            && (!BreaksSku(b, env) && BreaksNote(b, env) ==> r.value.reason == DuplicateReceipt)
            && (!BreaksSku(b, env) && !BreaksNote(b, env) && BreaksOrder(b, env) ==> r.value.reason == PoOverReceipt)
            && (!BreaksSku(b, env) && BreaksDestination(b, env) ==> r.value.reason == TransferRejected)
            && (!BreaksSku(b, env) && BreaksTransit(b, env) ==> r.value.reason == TransferOverReceipt)
  {
    var b := w.store.books;
    OwnFactFits(w, env);
    SkuRule(b, env);
    NoteRule(b, env);
    OrderRule(b, env);
    DestinationRule(b, env);
    TransitRule(b, env);
    assert BreaksNote(b, env) ==> !BreaksDestination(b, env) && !BreaksTransit(b, env);
    assert BreaksOrder(b, env) ==> !BreaksDestination(b, env) && !BreaksTransit(b, env);
    hide CheckSkus, CheckNote, CheckOrder, CheckDestination, CheckReceipt, BreaksSku, BreaksNote, BreaksOrder, Inv;
  }

  lemma OwnFactFits(w: World, env: Envelope)
    requires Known(w, env)
    ensures NotesUnique(w.store.books)
    ensures var b := w.store.books;
            env.body.GoodsReceived? && env.id in b.receipts ==> b.receipts[env.id].po == env.body.po && b.receipts[env.id].sku == env.body.move.sku
  {
    hide TransitOk, VerdictsOk, BusyOk, OutboxOk, DecisionsOk, JournalOk, FanOk, PoSum, EventsOk;
    var b := w.store.books;
    assert env.id in b.receipts ==> ReceiptOk(w.store.journal.events, b, env.id);
  }

  /** A receipt is a duplicate exactly when its SKU is live and another recorded receipt names the
      same note and the same SKU: a note may carry any number of SKUs. */
  lemma DuplicateIff(w: World, env: Envelope)
    requires Known(w, env) && env.body.GoodsReceived?
    ensures var b := w.store.books;
            Judge(b, env).Some? && Judge(b, env).value.reason == DuplicateReceipt <==>
              && env.body.move.sku in b.refs.items && !b.refs.items[env.body.move.sku]
              && exists id :: id in b.receipts && id != env.id && b.receipts[id].note == env.body.note && b.receipts[id].sku == env.body.move.sku
  {
    var b := w.store.books;
    hide Judge, Inv;
    FirstRuleBrokenDecides(w, env);
  }

  // ---------------------------------------------------------------- who is told

  /** Every decided event has been queued to those it concerns: an accepted dispatch to its
      destination, a receipt to the source it received from; and no event of a node is in any
      other queue, a refused dispatch in none. */
  lemma EventsReachWhomTheyConcern(r: seq<World>, k: nat, e: EventId)
    requires Run(r) && k < |r| && e in r[k].store.decisions
    ensures e in r[k].store.journal.events && e in r[k].verdicts && e.node != CENTRAL_NODE
    ensures Told(r[k].store.journal.events, r[k].store.outbox, r[k].store.journal.events[e], r[k].verdicts[e])
    ensures forall t :: (t, e) in r[k].store.outbox.enqueued ==> Concerns(r[k].store.journal.events, r[k].verdicts, t, e)
  {
    hide Step, Init, BooksOk, JournalOk, OutboxOk, DecisionsOk, BusyOk, Told, Concerns, Judge;
    RunKeepsInv(r, k);
    KnownVerdict(r[k], e);
  }

  // ---------------------------------------------------------------- one compensation set

  /** c is in the queue of t exactly once, and in no other queue. */
  ghost predicate QueuedOnce(o: Outbox, t: NodeId, c: Envelope)
  {
    && (exists i :: 0 <= i < |QueueOf(o, t)| && QueueOf(o, t)[i].env == c)
    && (forall i, j :: 0 <= i < j < |QueueOf(o, t)| ==> QueueOf(o, t)[i].env.id != c.id || QueueOf(o, t)[j].env.id != c.id)
    && (forall t', i :: t' != t && 0 <= i < |QueueOf(o, t')| ==> QueueOf(o, t')[i].env.id != c.id)
  }

  lemma EnqueuedIsQueuedOnce(events: Envelopes, o: Outbox, t: NodeId, c: Envelope, e: EventId)
    requires OutboxOk(events, o) && (t, c.id) in o.enqueued
    requires c.id in events && events[c.id] == c && c.causation == Some(e) && e.node == t
    ensures QueuedOnce(o, t, c)
  {
  }

  /** Every decided event has exactly the compensations its verdict calls for: none if accepted;
      if rejected, its drafts in order, each stamped after its cause, each queued once, to the
      node the event came from and to no other; and the decision names the first of them. */
  lemma DecidedEventIsAnsweredOnce(w: World, e: EventId)
    requires Inv(w) && e in w.store.decisions
    ensures e in w.verdicts && e in w.store.journal.events
    ensures w.verdicts[e].None? ==>
              w.store.decisions[e] == Decision(Accepted, None) && Compensations(w.store.journal.events, e) == {}
    ensures w.verdicts[e].Some? ==>
              && e in w.answers
              && w.store.decisions[e] == Decision(Rejected(w.verdicts[e].value.reason), if w.answers[e] == [] then None else Some(w.answers[e][0].id))
              && CompensationsOf(w.store.journal.events, e, w.answers[e])
              && AnswersOk(w.store.journal.events, e, w.verdicts[e].value, w.answers[e])
              && forall i :: 0 <= i < |w.answers[e]| ==> QueuedOnce(w.store.outbox, e.node, w.answers[e][i])
  {
    hide Judge, ReceiptsOk, TransitOk, VerdictStands, BusyOk, Before, OutboxOk;
    var j := w.store.journal;
    assert DecidedOk(w.store, w.verdicts, w.answers, e);
    KnownVerdict(w, e);
    if w.verdicts[e].Some? {
      var comps := w.answers[e];
      AnswersAreCompensations(j, w.verdicts, w.answers, e);
      forall i | 0 <= i < |comps|
        ensures QueuedOnce(w.store.outbox, e.node, comps[i])
      {
        AnswersCause(j.events, e, w.verdicts[e].value, comps, i);
        EnqueuedIsQueuedOnce(j.events, w.store.outbox, e.node, comps[i], e);
      }
    }
  }

  /** The same, of every state of every run. */
  lemma AnsweredOnceInEveryRun(r: seq<World>, k: nat, e: EventId)
    requires Run(r) && k < |r| && e in r[k].store.decisions
    ensures var w := r[k];
            && e in w.verdicts && e in w.store.journal.events
            && (w.verdicts[e].None? ==> Compensations(w.store.journal.events, e) == {})
            && (w.verdicts[e].Some? ==>
                  && e in w.answers && CompensationsOf(w.store.journal.events, e, w.answers[e])
                  && AnswersOk(w.store.journal.events, e, w.verdicts[e].value, w.answers[e])
                  && forall i :: 0 <= i < |w.answers[e]| ==> QueuedOnce(w.store.outbox, e.node, w.answers[e][i]))
  {
    hide Inv, Step, Init, AnswersOk, CompensationsOf, QueuedOnce, Compensations;
    RunKeepsInv(r, k);
    DecidedEventIsAnsweredOnce(r[k], e);
  }

  lemma AnswersAreCompensations(j: Journal, verdicts: Verdicts, answers: Answers, e: EventId)
    requires JournalOk(j, verdicts, answers) && e in answers && EventsOk(j.events)
    ensures CompensationsOf(j.events, e, answers[e])
  {
    var comps, r := answers[e], verdicts[e].value;
    forall i | 0 <= i < |comps|
      ensures comps[i] in Compensations(j.events, e)
    {
      AnswersCause(j.events, e, r, comps, i);
    }
    StampsDiffer(comps);
    forall i, k | 0 <= i < k < |comps|
      ensures !Replays(comps[k], comps[i])
    {
      BeforeTotal(comps[i].hlc, comps[k].hlc);
    }
  }

  /** The log never holds part of a compensation set: the compensations found for an event are
      none, or all its verdict calls for. So the error for an incomplete set is never returned. */
  lemma NoPartialCompensation(w: World, e: EventId, comps: seq<Envelope>)
    requires Inv(w) && CompensationsOf(w.store.journal.events, e, comps) && comps != []
    ensures e in w.verdicts && w.verdicts[e].Some? && |comps| == |w.verdicts[e].value.events|
  {
    hide Judge, ReceiptsOk, TransitOk, VerdictStands, BusyOk, Before, OutboxOk, DecisionsOk, CompensationsOf;
    FoundIsEmitted(w.store.journal, w.verdicts, w.answers, e, comps);
  }

  // ---------------------------------------------------------------- what a verdict takes back

  /** The stock of key k that drafts take back. */
  function TakenIn(drafts: seq<Draft>, k: Key): real
  {
    if drafts == [] then 0.0
    else
      var d := drafts[|drafts| - 1].body;
      TakenIn(drafts[..|drafts| - 1], k) + if d.StockAdjusted? && KeyOf(d.move) == k then d.move.qty else 0.0
  }

  function TakenBack(rej: Option<Rejection>, k: Key): real
  {
    if rej.None? then 0.0 else TakenIn(rej.value.events, k)
  }

  lemma TakenSnoc(drafts: seq<Draft>, d: Draft, k: Key)
    ensures TakenIn(drafts + [d], k) == TakenIn(drafts, k) + if d.body.StockAdjusted? && KeyOf(d.body.move) == k then d.body.move.qty else 0.0
  {
  }

  /** What is over on the line with key k. */
  function OverAt(b: Books, id: EventId, t: string, ms: seq<Movement>, k: Key): real
  {
    if ms == [] then 0.0
    else if KeyOf(ms[|ms| - 1]) == k then Over(b, id, t, ms[|ms| - 1])
    else OverAt(b, id, t, ms[..|ms| - 1], k)
  }

  lemma {:induction false} OverAtLine(b: Books, id: EventId, t: string, ms: seq<Movement>, i: nat)
    requires DistinctKeys(ms) && i < |ms|
    ensures OverAt(b, id, t, ms, KeyOf(ms[i])) == Over(b, id, t, ms[i])
  {
    hide Over;
    if i < |ms| - 1 {
      assert KeyOf(ms[i]) != KeyOf(ms[|ms| - 1]);
      OverAtLine(b, id, t, ms[..|ms| - 1], i);
    }
  }

  lemma MentionsInit(ms: seq<Movement>, k: Key)
    requires ms != [] && !Mentions(ms, k)
    ensures !Mentions(ms[..|ms| - 1], k) && KeyOf(ms[|ms| - 1]) != k
  {
  }

  lemma {:induction false} OverTaken(b: Books, id: EventId, t: string, ms: seq<Movement>, k: Key)
    requires DistinctKeys(ms)
    ensures TakenIn(OverEvents(b, id, t, ms), k) == OverAt(b, id, t, ms, k)
    ensures !Mentions(ms, k) ==> OverAt(b, id, t, ms, k) == 0.0
  {
    if ms != [] {
      var init, m := ms[..|ms| - 1], ms[|ms| - 1];
      var over := Over(b, id, t, m);
      assert over >= 0.0;
      hide Over, Mentions;
      OverTaken(b, id, t, init, k);
      TakenSnoc(OverEvents(b, id, t, init), Adjustment(m.sku, Reverse(m, over), TransferOverReceipt), k);
      assert OverEvents(b, id, t, init) + [] == OverEvents(b, id, t, init);
      LastIsNew(ms);
      if !Mentions(ms, k) { MentionsInit(ms, k); }
    }
  }

  lemma LastIsNew(ms: seq<Movement>)
    requires DistinctKeys(ms) && ms != []
    ensures !Mentions(ms[..|ms| - 1], KeyOf(ms[|ms| - 1]))
  {
  }

  lemma {:induction false} ReturnTaken(t: string, ms: seq<Movement>, k: Key)
    requires DistinctKeys(ms)
    ensures TakenIn(ReturnEvents(t, ms), k) == QtyAt(ms, k)
    ensures !Mentions(ms, k) ==> QtyAt(ms, k) == 0.0
  {
    if ms != [] {
      var init, m := ms[..|ms| - 1], ms[|ms| - 1];
      ReturnTaken(t, init, k);
      TakenSnoc(ReturnEvents(t, init), Adjustment(t, Reverse(m, m.qty), TransferRejected), k);
      assert KeyOf(m) == k ==> !Mentions(init, k);
    }
  }

  // ---------------------------------------------------------------- purchase orders

  ghost function RecordedQty(receipts: map<EventId, Fact>, e: EventId): real
  {
    if e in receipts then receipts[e].qty else 0.0
  }

  /** In every state recorded receipts stay within the ordered quantity of every line, and at most
      one receipt is recorded per delivery note and SKU. */
  lemma OrdersAreNeverExceeded(r: seq<World>, k: nat, po: string, sku: string)
    requires Run(r) && k < |r|
    ensures var b := r[k].store.books;
            && ((po, sku) in b.refs.orders ==> PoSum(b.receipts, po, sku) <= b.refs.orders[(po, sku)])
            && forall c, d :: c in b.receipts && d in b.receipts && b.receipts[c].note == b.receipts[d].note && b.receipts[c].sku == b.receipts[d].sku ==> c == d
  {
    hide Step, Init, Judge, PoSum, TransitOk, JournalOk, OutboxOk, DecisionsOk, BusyOk;
    RunKeepsInv(r, k);
    var b := r[k].store.books;
    assert (po, sku) in b.refs.orders ==> PoSum(b.receipts, (po, sku).0, (po, sku).1) <= b.refs.orders[(po, sku)];
  }

  lemma GoodsTaken(rej: Rejection, move: Movement, reason: Reason, q: real)
    requires rej.events == [Adjustment(move.sku, Reverse(move, q), reason)]
    ensures TakenIn(rej.events, KeyOf(move)) == q
  {
  }

  lemma OverReceiptTaken(receipt: string, move: Movement, q: real)
    ensures TakenIn(OverReceipt(receipt, move, q).events, KeyOf(move)) == q
  {
    var first, second := Adjustment(move.sku, Reverse(move, q), PoOverReceipt), Draft(receipt, ReceiptLineRecorded(receipt, 0, KeyOf(move), -q));
    TakenSnoc([], first, KeyOf(move));
    TakenSnoc([first], second, KeyOf(move));
    assert [] + [first] == [first] && [first] + [second] == OverReceipt(receipt, move, q).events;
  }

  lemma UnknownGoods(b: Books, env: Envelope)
    requires env.body.GoodsReceived? && !Live(b.refs, env.body.move.sku)
    ensures Judge(b, env).Some? && Judge(b, env).value.events == [Adjustment(env.body.move.sku, Reverse(env.body.move, env.body.move.qty), UnknownSku)]
  {
    var m := env.body.move;
    assert [m][..0] == [];
    assert UnknownEvents(b.refs, [m]) == UnknownEvents(b.refs, []) + [Adjustment(m.sku, Reverse(m, m.qty), UnknownSku)];
  }

  lemma DuplicateGoods(b: Books, env: Envelope)
    requires env.body.GoodsReceived? && Live(b.refs, env.body.move.sku) && !Counts(Judge(b, env))
    ensures Judge(b, env).Some? && Judge(b, env).value.events == [Adjustment(env.body.move.sku, Reverse(env.body.move, env.body.move.qty), DuplicateReceipt)]
  {
    GoodsSku(b, env);
    hide CheckSkus;
  }

  /** What central recorded of a receipt and what it took back add up to what was received. */
  lemma RecordedPlusReversed(w: World, e: EventId)
    requires Inv(w) && e in w.verdicts
    ensures e in w.store.journal.events
    ensures var g := w.store.journal.events[e].body;
            g.GoodsReceived? ==> RecordedQty(w.store.books.receipts, e) + TakenBack(w.verdicts[e], KeyOf(g.move)) == g.move.qty
  {
    hide Judge, EventsOk, TransitOk, VerdictsOk, BusyOk, OutboxOk, DecisionsOk, JournalOk, PoSum, OrdersKept, NotesUnique;
    var b, events := w.store.books, w.store.journal.events;
    KnownVerdict(w, e);
    var env := events[e];
    if env.body.GoodsReceived? {
      var g := env.body;
      if e in b.receipts {
        RecordedReceiptVerdict(events, b, e);
        OverReceiptTaken(g.receipt, g.move, g.move.qty - b.receipts[e].qty);
      } else if !Live(b.refs, g.move.sku) {
        UnknownGoods(b, env);
        GoodsTaken(w.verdicts[e].value, g.move, UnknownSku, g.move.qty);
      } else {
        DuplicateGoods(b, env);
        GoodsTaken(w.verdicts[e].value, g.move, DuplicateReceipt, g.move.qty);
      }
    }
  }

  // ---------------------------------------------------------------- sums over events

  ghost predicate Against(body: Payload, po: string, sku: string)
  {
    body.GoodsReceived? && body.po == po && body.move.sku == sku
  }

  /** The total of an order line, summed over any set of events that holds all its receipts. */
  lemma {:induction false} PoSumIsSum(receipts: map<EventId, Fact>, po: string, sku: string, m: map<EventId, real>)
    requires forall e :: e in receipts && receipts[e].po == po && receipts[e].sku == sku ==> e in m
    requires forall e :: e in m && e in receipts ==> m[e] == Share(receipts[e], po, sku)
    requires forall e :: e in m && e !in receipts ==> m[e] == 0.0
    ensures Sum(m) == PoSum(receipts, po, sku)
    decreases |receipts|
  {
    if receipts == map[] {
      SumZero(m);
    } else {
      var e :| e in receipts;
      PoSumAt(receipts, e, po, sku);
      if e in m {
        SumAt(m, e);
        PoSumIsSum(receipts - {e}, po, sku, m - {e});
      } else {
        PoSumIsSum(receipts - {e}, po, sku, m);
      }
    }
  }

  /** What each receipt against an order line leaves on the shelf once its compensations are in. */
  ghost function Inflow(w: World, po: string, sku: string): map<EventId, real>
    requires forall e :: e in w.store.journal.events && Against(w.store.journal.events[e].body, po, sku) ==> e in w.verdicts
  {
    map e | e in w.store.journal.events && Against(w.store.journal.events[e].body, po, sku)
      :: w.store.journal.events[e].body.move.qty - TakenBack(w.verdicts[e], KeyOf(w.store.journal.events[e].body.move))
  }

  /** The net inflow over all nodes against an order line is what central has recorded against it,
      hence never more than was ordered. */
  lemma NetInflowIsRecorded(w: World, po: string, sku: string)
    requires Inv(w)
    requires forall e :: e in w.store.journal.events && Against(w.store.journal.events[e].body, po, sku) ==> e in w.verdicts
    ensures Sum(Inflow(w, po, sku)) == PoSum(w.store.books.receipts, po, sku)
    ensures (po, sku) in w.store.books.refs.orders ==> Sum(Inflow(w, po, sku)) <= w.store.books.refs.orders[(po, sku)]
  {
    hide Judge, EventsOk, TransitOk, VerdictsOk, BusyOk, OutboxOk, DecisionsOk, JournalOk, PoSum, NotesUnique, TakenBack;
    var b, events, m := w.store.books, w.store.journal.events, Inflow(w, po, sku);
    forall e | e in m
      ensures m[e] == RecordedQty(b.receipts, e)
      ensures e in b.receipts ==> b.receipts[e].po == po && b.receipts[e].sku == sku
    {
      RecordedPlusReversed(w, e);
      assert e in b.receipts ==> ReceiptOk(events, b, e);
    }
    forall e | e in b.receipts && b.receipts[e].po == po && b.receipts[e].sku == sku
      ensures e in m
    {
      assert ReceiptOk(events, b, e);
    }
    PoSumIsSum(b.receipts, po, sku, m);
    var o := (po, sku);
    assert o in b.refs.orders ==> PoSum(b.receipts, o.0, o.1) <= b.refs.orders[o];
  }

  // ---------------------------------------------------------------- transfers

  ghost predicate AllLive(refs: Refs, ms: seq<Movement>)
  {
    forall i :: 0 <= i < |ms| ==> Live(refs, ms[i].sku)
  }

  lemma {:induction false} LiveLines(refs: Refs, ms: seq<Movement>)
    requires AllLive(refs, ms)
    ensures UnknownEvents(refs, ms) == []
  {
    if ms != [] { LiveLines(refs, ms[..|ms| - 1]); }
  }

  lemma ReceiptVerdict(b: Books, env: Envelope)
    requires env.body.TransferReceived? && AllLive(b.refs, env.body.lines)
    ensures var events := OverEvents(b, env.id, env.body.transfer, env.body.lines);
            if events == [] then Judge(b, env).None? else Judge(b, env).Some? && Judge(b, env).value.events == events
  {
    LiveLines(b.refs, env.body.lines);
  }

  lemma DispatchVerdict(b: Books, env: Envelope)
    requires env.body.TransferDispatched? && AllLive(b.refs, env.body.lines)
    ensures Judge(b, env).Some? <==> Refuses(b.refs, env.body.destination, env.body.lines)
    ensures Judge(b, env).Some? ==> Judge(b, env).value.events == ReturnEvents(env.body.transfer, env.body.lines)
  {
    LiveLines(b.refs, env.body.lines);
  }

  /** For every decided line of a transfer receipt, what was folded into the dispatch and what was
      compensated add up to the line. */
  lemma FoldedPlusCompensated(w: World, e: EventId, k: Key)
    requires Inv(w) && e in w.verdicts && e in w.store.journal.events && w.store.journal.events[e].body.TransferReceived?
    requires AllLive(w.store.books.refs, w.store.journal.events[e].body.lines)
    ensures Own(w.store.books.folded, e, k) + TakenBack(w.verdicts[e], k) == QtyAt(w.store.journal.events[e].body.lines, k)
  {
    hide Judge, ReceiptsOk, VerdictsOk, BusyOk, OutboxOk, DecisionsOk, JournalOk, RowOk, Over, OverEvents, LineSettled;
    var b, events := w.store.books, w.store.journal.events;
    var env := events[e];
    var t, lines := env.body.transfer, env.body.lines;
    KnownVerdict(w, e);
    assert WellFormed(env.body);
    ReceiptVerdict(b, env);
    OverTaken(b, e, t, lines, k);
    if Mentions(lines, k) {
      var i :| 0 <= i < |lines| && KeyOf(lines[i]) == k;
      assert LineOf(events, e, t, i);
      OverWhenSettled(events, b, e, t, i);
      OverAtLine(b, e, t, lines, i);
      QtyAtLine(lines, i);
    } else {
      ReturnTaken(t, lines, k);
      assert (e, k) in b.folded ==> FoldOk(events, b, e, k);
    }
  }

  lemma {:induction false} FoldedSumIsSum(folded: map<(EventId, Key), real>, ids: set<EventId>, k: Key, m: map<EventId, real>)
    requires m.Keys == ids && forall e :: e in m ==> m[e] == Own(folded, e, k)
    ensures Sum(m) == FoldedSum(folded, ids, k)
    decreases |ids|
  {
    if ids == {} {
      SumZero(m);
    } else {
      var e :| e in ids;
      FoldedSumAt(folded, ids, e, k);
      SumAt(m, e);
      FoldedSumIsSum(folded, ids - {e}, k, m - {e});
    }
  }

  /** Every receipt of the transfer has been recorded, and all SKUs concerned are live. */
  ghost predicate TransferRecorded(w: World, t: string)
  {
    forall e :: e in w.store.journal.events && (Receives(w.store.journal.events[e].body, t) || Dispatches(w.store.journal.events[e].body, t)) ==>
      e in w.verdicts && AllLive(w.store.books.refs, w.store.journal.events[e].body.lines)
  }

  lemma ReceivedIsFolded(w: World, t: string, k: Key)
    requires Inv(w) && (t, k) in w.store.books.transit
    ensures var row := w.store.books.transit[(t, k)];
            && 0.0 <= row.received <= row.dispatched
            && row.received == Sum(map e | e in ReceiptsOf(w.store.journal.events, t) :: Own(w.store.books.folded, e, k))
  {
    hide Judge, ReceiptsOk, VerdictsOk, BusyOk, OutboxOk, DecisionsOk, JournalOk, FoldOk, FoldedSum, Sum;
    assert RowOk(w.store.journal.events, w.store.books, t, k);
    FoldedSumIsSum(w.store.books.folded, ReceiptsOf(w.store.journal.events, t), k,
                   map e | e in ReceiptsOf(w.store.journal.events, t) :: Own(w.store.books.folded, e, k));
  }

  /** A recorded dispatch: refused exactly when its rows are failed, and then it nets to zero at
      the source; accepted, nothing of it comes back. */
  lemma DispatchNet(w: World, t: string, k: Key, d: EventId)
    requires Inv(w) && TransferRecorded(w, t) && (t, k) in w.store.books.transit
    requires d in w.store.journal.events && Dispatches(w.store.journal.events[d].body, t)
    ensures d in w.verdicts && (w.store.books.transit[(t, k)].failed <==> w.verdicts[d].Some?)
    ensures w.store.books.transit[(t, k)].dispatched == QtyAt(w.store.journal.events[d].body.lines, k)
    ensures TakenBack(w.verdicts[d], k) == if w.verdicts[d].Some? then w.store.books.transit[(t, k)].dispatched else 0.0
  {
    hide Judge, ReceiptsOk, VerdictsOk, BusyOk, OutboxOk, DecisionsOk, JournalOk, FoldOk, FoldedSum, QtyAt, UnknownEvents, Refuses;
    var events, b := w.store.journal.events, w.store.books;
    var env, row := events[d], b.transit[(t, k)];
    KnownVerdict(w, d);
    assert RowOk(events, b, t, k);
    var d' :| Backs(events, d', t, k, row);
    assert d' == d;
    assert WellFormed(env.body);
    DispatchVerdict(b, env);
    RejectedDispatch(events, b, env);
    ReturnTaken(t, env.body.lines, k);
  }

  /** The validators and the record of a receipt do not look at whether the transfer failed: a
      receipt against a failed transfer is judged and folded as if it were live. */
  lemma FailedTransferStillTakesReceipts(b: Books, env: Envelope, rej: Option<Rejection>, i: nat)
    requires env.body.TransferReceived? && i < |env.body.lines|
    ensures Judge(FailTransfer(b, env.body.transfer), env) == Judge(b, env)
    ensures RecordStep(FailTransfer(b, env.body.transfer), env, rej, i) == FailTransfer(RecordStep(b, env, rej, i), env.body.transfer)
  {
    hide Judge;
    JudgeReceived(b, FailTransfer(b, env.body.transfer), env);
  }
}
