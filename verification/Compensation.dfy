/** What the movements of an event and of its compensations come to. Central decides over its
    books, and what it takes back must leave exactly what it recorded, at every gauge.
 */
module Compensation {
  import opened Events
  import opened Warehouse
  import opened Central
  import opened Arbiter
  import opened ArbiterRuns
  import opened ArbiterBooks
  import opened ArbiterAnswers
  import opened ArbiterSafety
  import opened Shelves

  /** The movements drafts make. */
  function DraftMoves(drafts: seq<Draft>): seq<Movement>
  {
    if drafts == [] then []
    else
      var d := drafts[|drafts| - 1].body;
      DraftMoves(drafts[..|drafts| - 1]) + if d.StockAdjusted? then [d.move] else []
  }

  lemma EffectSnoc(ms: seq<Movement>, m: Movement, g: Gauge)
    ensures Effect(ms + [m], g) == Effect(ms, g) + EffectOf(m, g)
  {
  }

  /** Taking back q of a movement leaves the movement of the rest, at every gauge. */
  lemma ReverseLeavesTheRest(m: Movement, q: real, g: Gauge)
    ensures EffectOf(m, g) + EffectOf(Reverse(m, q), g) == EffectOf(m.(qty := m.qty - q), g)
  {
  }

  lemma NothingMoved(m: Movement, g: Gauge)
    requires m.qty == 0.0
    ensures EffectOf(m, g) == 0.0
  {
  }

  lemma NoDrafts(g: Gauge)
    ensures Effect([], g) == 0.0 && DraftMoves([]) == []
  {
  }

  lemma TakeBackStep(ms: seq<Movement>, drafts: seq<Draft>, m: Movement, q: real, aggregate: string, reason: Reason, g: Gauge)
    ensures Effect(ms + [m], g) + Effect(DraftMoves(drafts + [Adjustment(aggregate, Reverse(m, q), reason)]), g)
         == Effect(ms, g) + Effect(DraftMoves(drafts), g) + EffectOf(m.(qty := m.qty - q), g)
  {
    hide Effect, EffectOf;
    var back := Reverse(m, q);
    EffectSnoc(ms, m, g);
    EffectSnoc(DraftMoves(drafts), back, g);
    assert (drafts + [Adjustment(aggregate, back, reason)])[..|drafts|] == drafts;
    ReverseLeavesTheRest(m, q, g);
  }

  /** The lines of a refused dispatch and their returns come to nothing. */
  lemma {:induction false} RefusedDispatchNetsToZero(t: string, ms: seq<Movement>, g: Gauge)
    ensures Effect(ms, g) + Effect(DraftMoves(ReturnEvents(t, ms)), g) == 0.0
  {
    hide Effect, EffectOf, DraftMoves;
    NoDrafts(g);
    if ms != [] {
      var init, m := ms[..|ms| - 1], ms[|ms| - 1];
      assert ms == init + [m];
      RefusedDispatchNetsToZero(t, init, g);
      TakeBackStep(init, ReturnEvents(t, init), m, m.qty, t, TransferRejected, g);
      NothingMoved(m.(qty := m.qty - m.qty), g);
    }
  }

  /** The lines of a receipt with what is over taken off. */
  function Kept(b: Books, id: EventId, t: string, ms: seq<Movement>): seq<Movement>
  {
    if ms == [] then []
    else
      var m := ms[|ms| - 1];
      Kept(b, id, t, ms[..|ms| - 1]) + [m.(qty := m.qty - Over(b, id, t, m))]
  }

  lemma {:induction false} OverReceiptLeavesKept(b: Books, id: EventId, t: string, ms: seq<Movement>, g: Gauge)
    ensures Effect(ms, g) + Effect(DraftMoves(OverEvents(b, id, t, ms)), g) == Effect(Kept(b, id, t, ms), g)
  {
    hide Effect, EffectOf, DraftMoves;
    NoDrafts(g);
    if ms != [] {
      var init, m := ms[..|ms| - 1], ms[|ms| - 1];
      var over := Over(b, id, t, m);
      assert over >= 0.0;
      assert ms == init + [m];
      OverReceiptLeavesKept(b, id, t, init, g);
      TakeBackStep(init, OverEvents(b, id, t, init), m, over, m.sku, TransferOverReceipt, g);
      EffectSnoc(Kept(b, id, t, init), m.(qty := m.qty - over), g);
      EffectSnoc(init, m, g);
      assert over <= 0.0 ==> m.(qty := m.qty - over) == m;
      assert OverEvents(b, id, t, init) + [] == OverEvents(b, id, t, init);
    }
  }

  lemma GoodsLeavesRest(move: Movement, q: real, aggregate: string, reason: Reason, g: Gauge)
    ensures Effect([move], g) + Effect(DraftMoves([Adjustment(aggregate, Reverse(move, q), reason)]), g)
         == Effect([move.(qty := move.qty - q)], g)
  {
  }

  lemma PaperworkMovesNothing(drafts: seq<Draft>, d: Draft)
    requires !d.body.StockAdjusted?
    ensures DraftMoves(drafts + [d]) == DraftMoves(drafts)
  {
  }

  lemma NoCompensation(move: Movement, g: Gauge)
    ensures Effect([move], g) + Effect(DraftMoves([]), g) == Effect([move.(qty := move.qty - 0.0)], g)
  {
  }

  /** The drafts of a verdict, none when it accepted. */
  function DraftsOf(rej: Option<Rejection>): seq<Draft>
  {
    if rej.None? then [] else rej.value.events
  }

  lemma OverReceiptShelf(receipt: string, move: Movement, q: real, g: Gauge)
    ensures Effect([move], g) + Effect(DraftMoves(OverReceipt(receipt, move, q).events), g)
         == Effect([move.(qty := move.qty - q)], g)
  {
    var r := OverReceipt(receipt, move, q);
    hide Effect, DraftMoves;
    GoodsLeavesRest(move, q, move.sku, PoOverReceipt, g);
    PaperworkMovesNothing([r.events[0]], r.events[1]);
    assert [r.events[0]] + [r.events[1]] == r.events;
  }

  /** The movement of a goods receipt and of its compensations come to the movement of what central
      recorded of it, at every gauge; the paperwork is reversed by the same quantity. */
  lemma GoodsComeToRecorded(w: World, e: EventId, g: Gauge)
    requires Inv(w) && e in w.verdicts && e in w.store.journal.events && w.store.journal.events[e].body.GoodsReceived?
    ensures var b := w.store.journal.events[e].body;
            Effect([b.move], g) + Effect(DraftMoves(DraftsOf(w.verdicts[e])), g)
            == Effect([b.move.(qty := RecordedQty(w.store.books.receipts, e))], g)
    ensures var b := w.store.journal.events[e].body;
            e in w.store.books.receipts && w.verdicts[e].Some? ==>
              && |w.verdicts[e].value.events| == 2
              && w.verdicts[e].value.events[1] == Draft(b.receipt, ReceiptLineRecorded(b.receipt, 0, KeyOf(b.move), w.store.books.receipts[e].qty - b.move.qty))
  {
    hide Judge, EventsOk, TransitOk, VerdictsOk, BusyOk, OutboxOk, DecisionsOk, JournalOk, FanOk, PoSum, OrdersKept, NotesUnique,
      Effect, DraftMoves;
    var b, env := w.store.books, w.store.journal.events[e];
    var m := env.body.move;
    KnownVerdict(w, e);
    if e in b.receipts {
      RecordedReceiptVerdict(w.store.journal.events, b, e);
      var q := m.qty - b.receipts[e].qty;
      OverReceiptShelf(env.body.receipt, m, q, g);
      NoCompensation(m, g);
      assert m.(qty := m.qty - q) == m.(qty := b.receipts[e].qty);
    } else if !Live(b.refs, m.sku) {
      UnknownGoods(b, env);
      GoodsLeavesRest(m, m.qty, m.sku, UnknownSku, g);
    } else {
      DuplicateGoods(b, env);
      GoodsLeavesRest(m, m.qty, m.sku, DuplicateReceipt, g);
    }
  }

  /** The lines of a transfer receipt and its compensations come to what central folded into the
      dispatch, line by line, at every gauge. */
  lemma LinesComeToFolded(w: World, e: EventId, g: Gauge)
    requires Inv(w) && e in w.verdicts && e in w.store.journal.events && w.store.journal.events[e].body.TransferReceived?
    requires AllLive(w.store.books.refs, w.store.journal.events[e].body.lines)
    ensures var lines := w.store.journal.events[e].body.lines;
            Effect(lines, g) + Effect(DraftMoves(DraftsOf(w.verdicts[e])), g) == Effect(Folded(w.store.books, e, lines), g)
  {
    hide Judge, ReceiptsOk, VerdictsOk, BusyOk, OutboxOk, DecisionsOk, JournalOk, FanOk, RowOk, FoldOk, Over, Effect, DraftMoves, OverEvents;
    var b, events := w.store.books, w.store.journal.events;
    var env := events[e];
    var t, lines := env.body.transfer, env.body.lines;
    KnownVerdict(w, e);
    assert WellFormed(env.body);
    ReceiptVerdict(b, env);
    OverReceiptLeavesKept(b, e, t, lines, g);
    forall i | 0 <= i < |lines|
      ensures lines[i].qty - Over(b, e, t, lines[i]) == Own(b.folded, e, KeyOf(lines[i]))
    {
      assert LineOf(events, e, t, i);
      OverWhenSettled(events, b, e, t, i);
    }
    KeptIsFolded(b, e, t, lines);
  }

  /** The lines of a receipt at the quantities folded. */
  function Folded(b: Books, id: EventId, ms: seq<Movement>): seq<Movement>
  {
    if ms == [] then []
    else
      var m := ms[|ms| - 1];
      Folded(b, id, ms[..|ms| - 1]) + [m.(qty := Own(b.folded, id, KeyOf(m)))]
  }

  lemma {:induction false} KeptIsFolded(b: Books, id: EventId, t: string, ms: seq<Movement>)
    requires forall i :: 0 <= i < |ms| ==> ms[i].qty - Over(b, id, t, ms[i]) == Own(b.folded, id, KeyOf(ms[i]))
    ensures Kept(b, id, t, ms) == Folded(b, id, ms)
  {
    hide Over;
    if ms != [] {
      var init := ms[..|ms| - 1];
      assert forall i :: 0 <= i < |init| ==> init[i] == ms[i];
      KeptIsFolded(b, id, t, init);
      assert ms[|ms| - 1].qty - Over(b, id, t, ms[|ms| - 1]) == Own(b.folded, id, KeyOf(ms[|ms| - 1]));
    }
  }

  // ---------------------------------------------------------------- how much is taken back

  lemma TotalSnoc(ms: seq<Movement>, m: Movement)
    ensures Total(ms + [m]) == Total(ms) + m.qty
  {
  }

  lemma DraftSnoc(drafts: seq<Draft>, d: Draft)
    ensures DraftMoves(drafts + [d]) == DraftMoves(drafts) + if d.body.StockAdjusted? then [d.body.move] else []
  {
  }

  lemma {:induction false} UnknownTakes(refs: Refs, ms: seq<Movement>)
    ensures UnknownTotal(refs, ms) == Total(DraftMoves(UnknownEvents(refs, ms)))
  {
    hide DraftMoves, Total, Live;
    if ms == [] {
      NothingTaken();
    } else {
      var init, m := ms[..|ms| - 1], ms[|ms| - 1];
      UnknownTakes(refs, init);
      var d := Adjustment(m.sku, Reverse(m, m.qty), UnknownSku);
      DraftSnoc(UnknownEvents(refs, init), d);
      TotalSnoc(DraftMoves(UnknownEvents(refs, init)), d.body.move);
      assert UnknownEvents(refs, init) + [] == UnknownEvents(refs, init);
    }
  }

  lemma {:induction false} ReturnTakes(t: string, ms: seq<Movement>)
    ensures Total(ms) == Total(DraftMoves(ReturnEvents(t, ms)))
  {
    hide DraftMoves, Total;
    if ms == [] {
      NothingTaken();
    } else {
      var init, m := ms[..|ms| - 1], ms[|ms| - 1];
      ReturnTakes(t, init);
      var d := Adjustment(t, Reverse(m, m.qty), TransferRejected);
      DraftSnoc(ReturnEvents(t, init), d);
      TotalSnoc(DraftMoves(ReturnEvents(t, init)), d.body.move);
      TotalSnoc(init, m);
      assert ms == init + [m];
    }
  }

  lemma {:induction false} OverTakes(b: Books, id: EventId, t: string, ms: seq<Movement>)
    ensures OverTotal(b, id, t, ms) == Total(DraftMoves(OverEvents(b, id, t, ms)))
  {
    if ms == [] {
      NothingTaken();
    } else {
      var init, m := ms[..|ms| - 1], ms[|ms| - 1];
      OverIffLacks(b, id, t, m);
      hide DraftMoves, Total, Over;
      OverTakes(b, id, t, init);
      var d := Adjustment(m.sku, Reverse(m, Over(b, id, t, m)), TransferOverReceipt);
      DraftSnoc(OverEvents(b, id, t, init), d);
      TotalSnoc(DraftMoves(OverEvents(b, id, t, init)), d.body.move);
      assert OverEvents(b, id, t, init) + [] == OverEvents(b, id, t, init);
    }
  }

  lemma NothingTaken()
    ensures Total([]) == 0.0 && DraftMoves([]) == []
  {
  }

  lemma OneTaken(d: Draft, paper: Draft)
    requires d.body.StockAdjusted? && !paper.body.StockAdjusted?
    ensures Total(DraftMoves([d])) == d.body.move.qty && Total(DraftMoves([d, paper])) == d.body.move.qty
  {
    NothingTaken();
    DraftSnoc([], d);
    DraftSnoc([d], paper);
    TotalSnoc([], d.body.move);
    assert [] + [d] == [d] && [d] + [paper] == [d, paper] && [] + [d.body.move] == [d.body.move];
    assert DraftMoves([d]) + [] == DraftMoves([d]);
  }

  /** The quantity a rejection reports is what its drafts take back, whatever rule it is for. */
  lemma ExcessIsTakenBack(b: Books, env: Envelope)
    ensures Judge(b, env).Some? ==> Judge(b, env).value.excess == Total(DraftMoves(Judge(b, env).value.events))
  {
    UnknownTakes(b.refs, MovesOf(env.body));
    match env.body
    case GoodsReceived(receipt, _, _, move) =>
      hide DraftMoves, Total, UnknownEvents, UnknownTotal, PoSum, FirstSeen;
      OneTaken(Adjustment(move.sku, Reverse(move, move.qty), DuplicateReceipt), Draft("", Other));
      forall q
        ensures Total(DraftMoves(OverReceipt(receipt, move, q).events)) == q
      {
        OneTaken(Adjustment(move.sku, Reverse(move, q), PoOverReceipt), Draft(receipt, ReceiptLineRecorded(receipt, 0, KeyOf(move), -q)));
      }
    case TransferDispatched(transfer, _, _, lines) => ReturnTakes(transfer, lines);
    case TransferReceived(transfer, lines) => OverTakes(b, env.id, transfer, lines);
    case _ =>
  }

  /** A receipt against an order is never taken back by more than it brought, whatever the books say. */
  lemma OrderTakesAtMostAll(b: Books, env: Envelope)
    requires env.body.GoodsReceived? && env.body.move.qty > 0.0
    ensures CheckOrder(b, env).Some? ==> 0.0 < CheckOrder(b, env).value.excess <= env.body.move.qty
  {
  }

  /** Every stock movement a rejection drafts carries its reason, under the transfer it fails or the
      SKU it takes back. */
  ghost predicate Labelled(drafts: seq<Draft>, reason: Reason, transfer: string)
  {
    forall i :: 0 <= i < |drafts| && drafts[i].body.StockAdjusted? ==>
      && drafts[i].body.reason == reason
      && drafts[i].aggregate == if reason == TransferRejected then transfer else drafts[i].body.move.sku
  }

  lemma {:induction false} UnknownLabelled(refs: Refs, ms: seq<Movement>)
    ensures Labelled(UnknownEvents(refs, ms), UnknownSku, "")
  {
    if ms != [] { UnknownLabelled(refs, ms[..|ms| - 1]); }
  }

  lemma {:induction false} ReturnLabelled(t: string, ms: seq<Movement>)
    ensures Labelled(ReturnEvents(t, ms), TransferRejected, t)
  {
    if ms != [] { ReturnLabelled(t, ms[..|ms| - 1]); }
  }

  lemma {:induction false} OverLabelled(b: Books, id: EventId, t: string, ms: seq<Movement>)
    ensures Labelled(OverEvents(b, id, t, ms), TransferOverReceipt, "")
  {
    hide Over;
    if ms != [] { OverLabelled(b, id, t, ms[..|ms| - 1]); }
  }

  lemma RejectionIsLabelled(b: Books, env: Envelope)
    requires Judge(b, env).Some?
    ensures Labelled(Judge(b, env).value.events, Judge(b, env).value.reason, if env.body.TransferDispatched? then env.body.transfer else "")
  {
    UnknownLabelled(b.refs, MovesOf(env.body));
    hide UnknownEvents, UnknownTotal, PoSum, FirstSeen, ReturnEvents, OverEvents, Over, OverTotal;
    match env.body
    case TransferDispatched(transfer, _, _, lines) => ReturnLabelled(transfer, lines);
    case TransferReceived(transfer, lines) => OverLabelled(b, env.id, transfer, lines);
    case _ =>
  }
}
