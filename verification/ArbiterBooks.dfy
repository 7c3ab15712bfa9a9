/** How the books evolve: every store call of a record keeps them consistent and leaves the
    verdict on every event already recorded, and on the event being recorded, what it was.
 */
module ArbiterBooks {
  import opened Events
  import opened Warehouse
  import opened Central
  import opened Arbiter
  import opened ArbiterRuns

  // ---------------------------------------------------------------- lines by key

  lemma {:induction false} QtyAtLine(lines: seq<Movement>, i: nat)
    requires DistinctKeys(lines) && i < |lines|
    ensures QtyAt(lines, KeyOf(lines[i])) == lines[i].qty
  {
    if i < |lines| - 1 {
      assert KeyOf(lines[i]) != KeyOf(lines[|lines| - 1]);
      QtyAtLine(lines[..|lines| - 1], i);
    }
  }

  // ---------------------------------------------------------------- what a verdict depends on

  lemma {:induction false} OverEventsSame(b: Books, b': Books, id: EventId, t: string, ms: seq<Movement>)
    requires forall i :: 0 <= i < |ms| ==> Over(b, id, t, ms[i]) == Over(b', id, t, ms[i])
    ensures OverEvents(b, id, t, ms) == OverEvents(b', id, t, ms)
    ensures OverTotal(b, id, t, ms) == OverTotal(b', id, t, ms)
  {
    hide Over;
    if ms != [] {
      var init := ms[..|ms| - 1];
      forall i | 0 <= i < |init|
        ensures Over(b, id, t, init[i]) == Over(b', id, t, init[i])
      {
        assert init[i] == ms[i];
      }
      OverEventsSame(b, b', id, t, init);
    }
  }

  lemma JudgeReceived(b: Books, b': Books, env: Envelope)
    requires env.body.TransferReceived? && b'.refs == b.refs
    requires forall i :: 0 <= i < |env.body.lines| ==>
               Over(b, env.id, env.body.transfer, env.body.lines[i]) == Over(b', env.id, env.body.transfer, env.body.lines[i])
    ensures Judge(b, env) == Judge(b', env)
  {
    hide Over, OverEvents, OverTotal;
    OverEventsSame(b, b', env.id, env.body.transfer, env.body.lines);
  }

  lemma JudgeOther(b: Books, b': Books, env: Envelope)
    requires !env.body.TransferReceived? && b'.refs == b.refs && b'.receipts == b.receipts
    ensures Judge(b, env) == Judge(b', env)
  {
  }

  lemma SkusSame(b: Books, b': Books, env: Envelope)
    requires b'.refs == b.refs
    ensures CheckSkus(b, env) == CheckSkus(b', env)
  {
  }

  lemma DestinationSame(b: Books, b': Books, env: Envelope)
    requires b'.refs == b.refs
    ensures CheckDestination(b, env) == CheckDestination(b', env)
  {
  }

  // ---------------------------------------------------------------- receipts against orders

  lemma GoodsSku(b: Books, env: Envelope)
    requires env.body.GoodsReceived?
    ensures CheckSkus(b, env).None? <==> Live(b.refs, env.body.move.sku)
  {
    var m := env.body.move;
    assert [m][..0] == [];
    var none := UnknownEvents(b.refs, []);
    assert UnknownEvents(b.refs, [m]) == none + if Live(b.refs, m.sku) then [] else [Adjustment(m.sku, Reverse(m, m.qty), UnknownSku)];
  }

  /** The verdict on a receipt that is recorded, whatever was recorded since: accepted when it was
      recorded whole, refused beyond its recorded part otherwise. */
  lemma RecordedReceiptVerdict(events: Envelopes, b: Books, id: EventId)
    requires ReceiptsOk(events, b) && id in b.receipts && id in events && events[id].id == id
    ensures events[id].body.GoodsReceived?
    ensures var g, q := events[id].body, b.receipts[id].qty;
            Judge(b, events[id]) == if q == g.move.qty then None else Some(OverReceipt(g.receipt, g.move, g.move.qty - q))
  {
    assert ReceiptOk(events, b, id);
    var env := events[id];
    var g, f := env.body, b.receipts[id];
    GoodsSku(b, env);
    hide CheckSkus, UnknownEvents;
    assert f.note == g.note && f.sku == g.move.sku;
    assert CheckNote(b, env).None?;
    if (f.po, f.sku) in b.refs.orders {
      assert PoSum(b.receipts, f.po, f.sku) <= b.refs.orders[(f.po, f.sku)];
    }
  }

  lemma PoSumAdd(b: Books, id: EventId, f: Fact, po: string, sku: string)
    requires id !in b.receipts
    ensures PoSum(b.receipts[id := f], po, sku) == PoSum(b.receipts, po, sku) + Share(f, po, sku)
  {
    PoSumAt(b.receipts[id := f], id, po, sku);
    assert b.receipts[id := f] - {id} == b.receipts;
  }

  /** A receipt about to be recorded: no other receipt keys its note, and what is recorded of it is
      the whole, or exactly what fills its order. */
  lemma NewReceiptFits(events: Envelopes, b: Books, env: Envelope, rej: Option<Rejection>)
    requires ReceiptsOk(events, b) && env.body.GoodsReceived? && env.body.move.qty > 0.0
    requires rej == Judge(b, env) && Counts(rej) && env.id !in b.receipts
    ensures var g := env.body;
            var f := ReceiptFact(env.id, g.note, g.po, g.move, rej);
            && Live(b.refs, g.move.sku) && !Keyed(b.receipts, g.note, g.move.sku)
            && 0.0 <= f.qty <= g.move.qty
            && (if (g.po, g.move.sku) in b.refs.orders
                then && PoSum(b.receipts, g.po, g.move.sku) + f.qty <= b.refs.orders[(g.po, g.move.sku)]
                     && (f.qty < g.move.qty ==> PoSum(b.receipts, g.po, g.move.sku) + f.qty == b.refs.orders[(g.po, g.move.sku)])
                else f.qty == g.move.qty)
  {
    var g := env.body;
    GoodsSku(b, env);
    assert CheckSkus(b, env).None?;
    assert CheckNote(b, env).None?;
    if (g.po, g.move.sku) in b.refs.orders {
      assert PoSum(b.receipts, g.po, g.move.sku) <= b.refs.orders[(g.po, g.move.sku)];
    }
  }

  lemma ReceiptStays(events: Envelopes, b: Books, b': Books, id: EventId)
    requires id in b.receipts && ReceiptOk(events, b, id) && id in b'.receipts && b'.receipts[id] == b.receipts[id]
    requires b'.refs == b.refs && OrdersKept(b')
    requires forall po, sku :: PoSum(b.receipts, po, sku) <= PoSum(b'.receipts, po, sku)
    ensures ReceiptOk(events, b', id)
  {
  }

  lemma NewReceiptKeepsOrders(b: Books, b': Books, id: EventId, f: Fact)
    requires OrdersKept(b) && id !in b.receipts && b' == b.(receipts := b.receipts[id := f]) && f.qty >= 0.0
    requires (f.po, f.sku) in b.refs.orders ==> PoSum(b.receipts, f.po, f.sku) + f.qty <= b.refs.orders[(f.po, f.sku)]
    ensures OrdersKept(b')
    ensures PoSum(b'.receipts, f.po, f.sku) == PoSum(b.receipts, f.po, f.sku) + f.qty
    ensures forall po, sku :: PoSum(b.receipts, po, sku) <= PoSum(b'.receipts, po, sku)
  {
    forall po, sku
      ensures PoSum(b'.receipts, po, sku) == PoSum(b.receipts, po, sku) + Share(f, po, sku)
    {
      PoSumAdd(b, id, f, po, sku);
    }
    hide PoSum;
    forall o | o in b'.refs.orders
      ensures PoSum(b'.receipts, o.0, o.1) <= b'.refs.orders[o]
    {
      assert PoSum(b'.receipts, o.0, o.1) == PoSum(b.receipts, o.0, o.1) + Share(f, o.0, o.1);
      assert o == (o.0, o.1);
    }
  }

  lemma RecordReceiptKeepsReceipts(events: Envelopes, b: Books, env: Envelope, rej: Option<Rejection>)
    requires ReceiptsOk(events, b) && env.body.GoodsReceived? && env.body.move.qty > 0.0
    requires env.id in events && events[env.id] == env && env.id.node != CENTRAL_NODE
    requires rej == Judge(b, env) && Counts(rej)
    ensures ReceiptsOk(events, RecordStep(b, env, rej, 0)) && env.id in RecordStep(b, env, rej, 0).receipts
  {
    hide Judge, PoSum, OrdersKept;
    var b' := RecordStep(b, env, rej, 0);
    if env.id !in b.receipts {
      NewReceiptFits(events, b, env, rej);
      var f := ReceiptFact(env.id, env.body.note, env.body.po, env.body.move, rej);
      NewReceiptKeepsOrders(b, b', env.id, f);
      assert NotesUnique(b');
      assert ReceiptOk(events, b', env.id);
      forall id | id in b'.receipts && id != env.id
        ensures ReceiptOk(events, b', id)
      {
        ReceiptStays(events, b, b', id);
      }
    }
  }

  /** A receipt refused as a duplicate stays one: the other receipt of its note stays. */
  lemma DuplicateStays(b: Books, b': Books, env: Envelope)
    requires env.body.GoodsReceived? && NotesUnique(b') && b'.refs == b.refs
    requires forall id :: id in b.receipts ==> id in b'.receipts && b'.receipts[id] == b.receipts[id]
    requires CheckSkus(b, env).None? && CheckNote(b, env).Some?
    ensures Judge(b', env) == Judge(b, env)
  {
  }

  lemma CountsOnlyIf(b: Books, env: Envelope)
    requires env.body.GoodsReceived?
    ensures Counts(Judge(b, env)) <==> CheckSkus(b, env).None? && CheckNote(b, env).None?
  {
  }

  /** However many receipts were recorded since, a recorded or refused receipt is judged the same. */
  lemma GoodsVerdictStays(events: Envelopes, b: Books, b': Books, id: EventId)
    requires ReceiptsOk(events, b) && ReceiptsOk(events, b') && b'.refs == b.refs
    requires forall c :: c in b.receipts ==> c in b'.receipts && b'.receipts[c] == b.receipts[c]
    requires id in events && events[id].id == id && events[id].body.GoodsReceived?
    requires Counts(Judge(b, events[id])) ==> id in b.receipts
    ensures Judge(b', events[id]) == Judge(b, events[id])
  {
    hide Judge, CheckSkus, CheckNote, ReceiptsOk, NotesUnique;
    var env := events[id];
    CountsOnlyIf(b, env);
    if id in b.receipts {
      RecordedReceiptVerdict(events, b, id);
      RecordedReceiptVerdict(events, b', id);
    } else if CheckSkus(b, env).Some? {
      UnknownSkuDecides(b, b', env);
    } else {
      NotesFrom(events, b');
      DuplicateStays(b, b', env);
    }
  }

  lemma NotesFrom(events: Envelopes, b: Books)
    requires ReceiptsOk(events, b)
    ensures NotesUnique(b)
  {
  }

  lemma UnknownSkuDecides(b: Books, b': Books, env: Envelope)
    requires b'.refs == b.refs && CheckSkus(b, env).Some?
    ensures Judge(b, env) == Judge(b', env)
  {
  }

  lemma RecordReceiptKeepsVerdict(events: Envelopes, b: Books, b': Books, verdicts: Verdicts, id: EventId)
    requires EventsOk(events) && ReceiptsOk(events, b) && ReceiptsOk(events, b') && b' == b.(receipts := b'.receipts)
    requires forall c :: c in b.receipts ==> c in b'.receipts && b'.receipts[c] == b.receipts[c]
    requires id in verdicts && VerdictStands(events, b, verdicts, id)
    ensures VerdictStands(events, b', verdicts, id)
  {
    hide Judge, ReceiptsOk;
    var env := events[id];
    assert env.id == id;
    if env.body.GoodsReceived? {
      GoodsVerdictStays(events, b, b', id);
    } else {
      NotGoodsSame(b, b', env);
    }
  }

  lemma NotGoodsSame(b: Books, b': Books, env: Envelope)
    requires b' == b.(receipts := b'.receipts) && !env.body.GoodsReceived?
    ensures Judge(b, env) == Judge(b', env)
  {
    SkusSame(b, b', env);
    DestinationSame(b, b', env);
    hide CheckSkus, CheckDestination;
    if env.body.TransferReceived? {
      JudgeReceived(b, b', env);
    }
  }

  // ---------------------------------------------------------------- receipts against dispatches

  ghost predicate LineOf(events: Envelopes, id: EventId, t: string, i: nat)
  {
    && id in events && events[id].id == id && Receives(events[id].body, t) && i < |events[id].body.lines|
    && Positive(events[id].body.lines) && DistinctKeys(events[id].body.lines)
  }

  /** Once a line is settled, what is over is what was not folded, whatever was folded since. */
  lemma OverWhenSettled(events: Envelopes, b: Books, id: EventId, t: string, i: nat)
    requires TransitOk(events, b) && LineOf(events, id, t, i)
    requires LineSettled(b, id, t, events[id].body.lines[i])
    ensures var m := events[id].body.lines[i];
            Over(b, id, t, m) == m.qty - Own(b.folded, id, KeyOf(m))
  {
    hide FoldedSum, Backs, RefusedDispatch;
    var m := events[id].body.lines[i];
    var k := KeyOf(m);
    QtyAtLine(events[id].body.lines, i);
    assert (id, k) in b.folded ==> FoldOk(events, b, id, k);
    assert (t, k) in b.transit ==> RowOk(events, b, t, k);
  }

  lemma {:induction false} FoldedSumAt(folded: map<(EventId, Key), real>, ids: set<EventId>, id: EventId, k: Key)
    requires id in ids
    ensures FoldedSum(folded, ids, k) == Own(folded, id, k) + FoldedSum(folded, ids - {id}, k)
    decreases |ids|
  {
    var p :| p in ids && FoldedSum(folded, ids, k) == Own(folded, p, k) + FoldedSum(folded, ids - {p}, k);
    if p != id {
      FoldedSumAt(folded, ids - {p}, id, k);
      FoldedSumAt(folded, ids - {id}, p, k);
      assert ids - {p} - {id} == ids - {id} - {p};
    }
  }

  lemma {:induction false} FoldedSumSame(folded: map<(EventId, Key), real>, folded': map<(EventId, Key), real>, ids: set<EventId>, k: Key)
    requires forall id :: id in ids ==> Own(folded, id, k) == Own(folded', id, k)
    ensures FoldedSum(folded, ids, k) == FoldedSum(folded', ids, k)
    decreases |ids|
  {
    if ids != {} {
      var p :| p in ids;
      FoldedSumAt(folded, ids, p, k);
      FoldedSumAt(folded', ids, p, k);
      FoldedSumSame(folded, folded', ids - {p}, k);
    }
  }

  /** The line a receipt is about to fold: not folded yet, and something is left of the dispatch. */
  ghost predicate FoldsInto(events: Envelopes, b: Books, b': Books, id: EventId, t: string, i: nat)
  {
    && LineOf(events, id, t, i)
    && var m := events[id].body.lines[i];
    && (t, KeyOf(m)) in b.transit && (id, KeyOf(m)) !in b.folded
    && var row := b.transit[(t, KeyOf(m))];
    && var accepted := if m.qty > row.dispatched - row.received then row.dispatched - row.received else m.qty;
    && accepted > 0.0
    && b' == b.(folded := b.folded[(id, KeyOf(m)) := accepted],
                transit := b.transit[(t, KeyOf(m)) := row.(received := row.received + accepted)])
  }

  lemma FoldLineCases(events: Envelopes, b: Books, id: EventId, t: string, i: nat)
    requires TransitOk(events, b) && LineOf(events, id, t, i)
    ensures var m := events[id].body.lines[i];
            var b' := FoldLine(b, id, t, m);
            FoldsInto(events, b, b', id, t, i) || (b' == b && LineSettled(b, id, t, m))
  {
    hide FoldedSum, Backs, RefusedDispatch;
    var m := events[id].body.lines[i];
    var k := KeyOf(m);
    QtyAtLine(events[id].body.lines, i);
    assert (id, k) in b.folded ==> FoldOk(events, b, id, k);
    assert (t, k) in b.transit ==> RowOk(events, b, t, k);
  }

  lemma FoldKeepsRows(events: Envelopes, b: Books, b': Books, id: EventId, t: string, i: nat, t': string, k': Key)
    requires TransitOk(events, b) && FoldsInto(events, b, b', id, t, i) && (t', k') in b'.transit
    ensures RowOk(events, b', t', k')
  {
    var k := KeyOf(events[id].body.lines[i]);
    var row, row' := b.transit[(t', k')], b'.transit[(t', k')];
    var ids := ReceiptsOf(events, t');
    assert RowOk(events, b, t', k');
    assert exists d :: Backs(events, d, t', k', row') by {
      var d :| Backs(events, d, t', k', row);
      assert Backs(events, d, t', k', row');
    }
    hide FoldedSum, Backs, RefusedDispatch;
    if t' == t && k' == k {
      FoldedSumAt(b.folded, ids, id, k);
      FoldedSumAt(b'.folded, ids, id, k);
      FoldedSumSame(b.folded, b'.folded, ids - {id}, k);
    } else {
      FoldedSumSame(b.folded, b'.folded, ids, k');
    }
  }

  lemma FoldKeepsFolds(events: Envelopes, b: Books, b': Books, id: EventId, t: string, i: nat, id': EventId, k': Key)
    requires TransitOk(events, b) && FoldsInto(events, b, b', id, t, i) && (id', k') in b'.folded
    ensures FoldOk(events, b', id', k')
  {
    hide FoldedSum, Backs, QtyAt, RefusedDispatch;
    var k := KeyOf(events[id].body.lines[i]);
    QtyAtLine(events[id].body.lines, i);
    if (id', k') in b.folded {
      assert FoldOk(events, b, id', k');
    }
  }

  lemma FoldKeepsTransit(events: Envelopes, b: Books, b': Books, id: EventId, t: string, i: nat)
    requires TransitOk(events, b) && FoldsInto(events, b, b', id, t, i)
    ensures TransitOk(events, b')
  {
    hide RowOk, FoldOk;
    forall t', k' | (t', k') in b'.transit
      ensures RowOk(events, b', t', k')
    {
      FoldKeepsRows(events, b, b', id, t, i, t', k');
    }
    forall id', k' | (id', k') in b'.folded
      ensures FoldOk(events, b', id', k')
    {
      FoldKeepsFolds(events, b, b', id, t, i, id', k');
    }
  }

  /** Folding one line leaves every settled line settled, and what is over on it unchanged. */
  lemma FoldKeepsSettled(events: Envelopes, b: Books, b': Books, id: EventId, t: string, i: nat, id': EventId, t': string, i': nat)
    requires TransitOk(events, b) && TransitOk(events, b') && FoldsInto(events, b, b', id, t, i) && LineOf(events, id', t', i')
    requires LineSettled(b, id', t', events[id'].body.lines[i'])
    ensures LineSettled(b', id', t', events[id'].body.lines[i'])
    ensures Over(b', id', t', events[id'].body.lines[i']) == Over(b, id', t', events[id'].body.lines[i'])
  {
    hide FoldedSum, Backs, QtyAt, RefusedDispatch;
    var m, m' := events[id].body.lines[i], events[id'].body.lines[i'];
    assert RowOk(events, b, t, KeyOf(m));
    assert m'.qty > 0.0;
    if t' == t && KeyOf(m') == KeyOf(m) {
      assert Own(b'.folded, id', KeyOf(m')) == Own(b.folded, id', KeyOf(m'));
    }
    assert LineSettled(b', id', t', m');
    hide TransitOk, Over;
    OverWhenSettled(events, b, id', t', i');
    OverWhenSettled(events, b', id', t', i');
  }

  /** Folding a line leaves what is over on the lines of the same event unchanged, settled or not. */
  lemma FoldKeepsOwnOver(events: Envelopes, b: Books, b': Books, id: EventId, t: string, i: nat, j: nat)
    requires FoldsInto(events, b, b', id, t, i) && j < |events[id].body.lines|
    ensures Over(b', id, t, events[id].body.lines[j]) == Over(b, id, t, events[id].body.lines[j])
    ensures j != i && LineSettled(b, id, t, events[id].body.lines[j]) ==> LineSettled(b', id, t, events[id].body.lines[j])
    ensures LineSettled(b', id, t, events[id].body.lines[i])
  {
  }

  // ---------------------------------------------------------------- one store call of a record

  lemma ReceiptsSame(events: Envelopes, b: Books, b': Books)
    requires ReceiptsOk(events, b) && b'.refs == b.refs && b'.receipts == b.receipts
    ensures ReceiptsOk(events, b')
  {
    hide PoSum;
    forall id | id in b'.receipts
      ensures ReceiptOk(events, b', id)
    {
      assert ReceiptOk(events, b, id);
    }
  }

  lemma FoldKeepsVerdict(events: Envelopes, b: Books, b': Books, id: EventId, t: string, i: nat, verdicts: Verdicts, id': EventId)
    requires EventsOk(events) && TransitOk(events, b) && TransitOk(events, b') && FoldsInto(events, b, b', id, t, i)
    requires id' in verdicts && VerdictStands(events, b, verdicts, id')
    ensures VerdictStands(events, b', verdicts, id')
  {
    hide Judge, TransitOk, Over, LineSettled;
    var env := events[id'];
    if env.body.TransferReceived? {
      forall j | 0 <= j < |env.body.lines|
        ensures LineSettled(b', id', env.body.transfer, env.body.lines[j])
        ensures Over(b', id', env.body.transfer, env.body.lines[j]) == Over(b, id', env.body.transfer, env.body.lines[j])
      {
        assert LineOf(events, id', env.body.transfer, j);
        FoldKeepsSettled(events, b, b', id, t, i, id', env.body.transfer, j);
      }
      JudgeReceived(b, b', env);
    } else {
      JudgeOther(b, b', env);
    }
  }

  lemma FoldStep(events: Envelopes, b: Books, verdicts: Verdicts, env: Envelope, rej: Option<Rejection>, i: nat)
    requires BooksOk(events, b, verdicts) && env.id in events && events[env.id] == env && env.body.TransferReceived?
    requires env.id.node != CENTRAL_NODE && Judge(b, env) == rej && i < |env.body.lines| && RecordedTo(b, env, rej, i)
    ensures var b' := RecordStep(b, env, rej, i);
            BooksOk(events, b', verdicts) && Judge(b', env) == rej && RecordedTo(b', env, rej, i + 1)
  {
    hide Judge, TransitOk, ReceiptsOk, VerdictStands, Over, LineSettled, FoldLine;
    var b' := RecordStep(b, env, rej, i);
    var t := env.body.transfer;
    assert LineOf(events, env.id, t, i);
    FoldLineCases(events, b, env.id, t, i);
    if FoldsInto(events, b, b', env.id, t, i) {
      FoldKeepsTransit(events, b, b', env.id, t, i);
      ReceiptsSame(events, b, b');
      forall id | id in verdicts
        ensures VerdictStands(events, b', verdicts, id)
      {
        FoldKeepsVerdict(events, b, b', env.id, t, i, verdicts, id);
      }
      forall j | 0 <= j < |env.body.lines|
        ensures Over(b', env.id, t, env.body.lines[j]) == Over(b, env.id, t, env.body.lines[j])
        ensures j <= i ==> LineSettled(b', env.id, t, env.body.lines[j])
      {
        FoldKeepsOwnOver(events, b, b', env.id, t, i, j);
      }
      JudgeReceived(b, b', env);
    }
  }

  lemma ReceiptStep(events: Envelopes, b: Books, verdicts: Verdicts, env: Envelope, rej: Option<Rejection>)
    requires BooksOk(events, b, verdicts) && env.id in events && events[env.id] == env && env.body.GoodsReceived?
    requires env.id.node != CENTRAL_NODE && Judge(b, env) == rej && Counts(rej)
    ensures var b' := RecordStep(b, env, rej, 0);
            BooksOk(events, b', verdicts) && Judge(b', env) == rej && RecordedTo(b', env, rej, 1)
  {
    hide Judge, ReceiptsOk, VerdictStands, RowOk, FoldOk;
    var b' := RecordStep(b, env, rej, 0);
    assert WellFormed(env.body);
    RecordReceiptKeepsReceipts(events, b, env, rej);
    forall id | id in verdicts
      ensures VerdictStands(events, b', verdicts, id)
    {
      RecordReceiptKeepsVerdict(events, b, b', verdicts, id);
    }
    TransitSame(events, b, b');
    NewReceiptVerdict(events, b, env, rej);
  }

  lemma TransitSame(events: Envelopes, b: Books, b': Books)
    requires TransitOk(events, b) && b'.transit == b.transit && b'.folded == b.folded && b'.refs == b.refs
    ensures TransitOk(events, b')
  {
  }

  lemma RejectionOfGoods(b: Books, env: Envelope)
    requires env.body.GoodsReceived? && Counts(Judge(b, env)) && Judge(b, env).Some?
    ensures var g, r := env.body, Judge(b, env).value;
            r == OverReceipt(g.receipt, g.move, r.excess) && (g.move.qty > 0.0 ==> 0.0 < r.excess)
  {
  }

  /** Right after its own record, a receipt is judged as before: its own share is left out. */
  lemma NewReceiptVerdict(events: Envelopes, b: Books, env: Envelope, rej: Option<Rejection>)
    requires env.id in events && events[env.id] == env && env.body.GoodsReceived? && env.body.move.qty > 0.0
    requires Judge(b, env) == rej && Counts(rej)
    requires ReceiptsOk(events, b) && ReceiptsOk(events, RecordStep(b, env, rej, 0))
    ensures Judge(RecordStep(b, env, rej, 0), env) == rej
  {
    hide Judge, ReceiptsOk;
    var b' := RecordStep(b, env, rej, 0);
    if env.id !in b.receipts {
      RecordedReceiptVerdict(events, b', env.id);
      if rej.Some? { RejectionOfGoods(b, env); }
    }
  }

  // ---------------------------------------------------------------- dispatches

  ghost predicate NewRow(b: Books, b': Books, t: string, k: Key, row: Row)
  {
    (t, k) !in b.transit && b' == b.(transit := b.transit[(t, k) := row])
  }

  /** A dispatch line is a new row, or one already there that stays exactly as it is. */
  lemma DispatchCases(events: Envelopes, b: Books, env: Envelope, i: nat)
    requires EventsOk(events) && TransitOk(events, b) && env.id in events && events[env.id] == env && env.body.TransferDispatched?
    requires i < |env.body.lines| && DistinctKeys(env.body.lines)
    ensures var g := env.body;
            var row := Row(g.source, g.destination, g.lines[i].qty, 0.0, false);
            var b' := RecordDispatch(b, g.transfer, KeyOf(g.lines[i]), row);
            && Backs(events, env.id, g.transfer, KeyOf(g.lines[i]), row)
            && (NewRow(b, b', g.transfer, KeyOf(g.lines[i]), row) || (b' == b && (g.transfer, KeyOf(g.lines[i])) in b.transit))
  {
    hide FoldedSum, QtyAt;
    var g := env.body;
    var t, k := g.transfer, KeyOf(g.lines[i]);
    QtyAtLine(g.lines, i);
    assert Dispatches(env.body, t);
    if (t, k) in b.transit {
      assert RowOk(events, b, t, k);
      var d :| Backs(events, d, t, k, b.transit[(t, k)]);
      assert d == env.id;
      var row := Row(g.source, g.destination, g.lines[i].qty, 0.0, false);
      assert b.transit[(t, k)].(dispatched := row.dispatched) == b.transit[(t, k)];
      assert b.transit[(t, k) := b.transit[(t, k)]] == b.transit;
    }
  }

  lemma NewRowKeepsTransit(events: Envelopes, b: Books, b': Books, d: EventId, t: string, k: Key, row: Row)
    requires TransitOk(events, b) && NewRow(b, b', t, k, row) && Backs(events, d, t, k, row)
    requires row.received == 0.0 <= row.dispatched && !row.failed && forall r :: r in events ==> !Receives(events[r].body, t)
    ensures TransitOk(events, b')
  {
    hide QtyAt;
    forall t', k' | (t', k') in b'.transit
      ensures RowOk(events, b', t', k')
    {
      if (t', k') != (t, k) { assert RowOk(events, b, t', k'); } else { assert ReceiptsOf(events, t) == {}; }
    }
    forall id, k' | (id, k') in b'.folded
      ensures FoldOk(events, b', id, k')
    {
      assert FoldOk(events, b, id, k');
    }
  }

  lemma NewRowKeepsVerdict(events: Envelopes, b: Books, b': Books, d: EventId, t: string, k: Key, row: Row, verdicts: Verdicts, id: EventId)
    requires EventsOk(events) && NewRow(b, b', t, k, row) && Backs(events, d, t, k, row) && d !in verdicts
    requires forall r :: r in events ==> !Receives(events[r].body, t)
    requires id in verdicts && VerdictStands(events, b, verdicts, id)
    ensures VerdictStands(events, b', verdicts, id)
  {
    hide Judge, QtyAt;
    var env := events[id];
    if env.body.TransferReceived? {
      assert !Receives(env.body, t);
      JudgeReceived(b, b', env);
    } else {
      JudgeOther(b, b', env);
      assert env.body.TransferDispatched? ==> Dispatches(env.body, env.body.transfer);
    }
  }

  lemma DispatchStep(events: Envelopes, b: Books, verdicts: Verdicts, env: Envelope, rej: Option<Rejection>, i: nat)
    requires BooksOk(events, b, verdicts) && Admissible(events, verdicts, env) && env.id in events && env.body.TransferDispatched?
    requires Judge(b, env) == rej && i < |env.body.lines| && RecordedTo(b, env, rej, i)
    ensures var b' := RecordStep(b, env, rej, i);
            BooksOk(events, b', verdicts) && Judge(b', env) == rej && RecordedTo(b', env, rej, i + 1)
  {
    hide Judge, ReceiptsOk, VerdictStands, RowOk, FoldOk, Backs;
    var b', g := RecordStep(b, env, rej, i), env.body;
    var t, k := g.transfer, KeyOf(g.lines[i]);
    DispatchCases(events, b, env, i);
    if (t, k) !in b.transit {
      var row := Row(g.source, g.destination, g.lines[i].qty, 0.0, false);
      assert env.id in verdicts ==> VerdictStands(events, b, verdicts, env.id);
      RecordedDispatch(events, b, verdicts, env, i);
      NewRowKeepsTransit(events, b, b', env.id, t, k, row);
      ReceiptsSame(events, b, b');
      forall id | id in verdicts
        ensures VerdictStands(events, b', verdicts, id)
      {
        NewRowKeepsVerdict(events, b, b', env.id, t, k, row, verdicts, id);
      }
      JudgeOther(b, b', env);
    }
  }

  lemma RecordedDispatch(events: Envelopes, b: Books, verdicts: Verdicts, env: Envelope, i: nat)
    requires env.id in verdicts ==> VerdictStands(events, b, verdicts, env.id)
    requires env.id in events && events[env.id] == env && env.body.TransferDispatched? && i < |env.body.lines|
    requires (env.body.transfer, KeyOf(env.body.lines[i])) !in b.transit
    ensures env.id !in verdicts
  {
  }

  lemma FailStep(events: Envelopes, b: Books, verdicts: Verdicts, env: Envelope, rej: Option<Rejection>)
    requires BooksOk(events, b, verdicts) && env.id in events && events[env.id] == env && env.body.TransferDispatched?
    requires Judge(b, env) == rej && rej.Some? && RecordedTo(b, env, rej, |env.body.lines|)
    ensures var b' := RecordStep(b, env, rej, |env.body.lines|);
            BooksOk(events, b', verdicts) && Judge(b', env) == rej && RecordedTo(b', env, rej, |env.body.lines| + 1)
  {
    hide Judge, ReceiptsOk, VerdictStands, TransitOk;
    var b' := RecordStep(b, env, rej, |env.body.lines|);
    RejectedDispatch(events, b, env);
    FailKeepsTransit(events, b, env.body.transfer);
    ReceiptsSame(events, b, b');
    forall id | id in verdicts
      ensures VerdictStands(events, b', verdicts, id)
    {
      FailKeepsVerdict(events, b, env.body.transfer, verdicts, id);
    }
    JudgeOther(b, b', env);
  }

  lemma RejectedDispatch(events: Envelopes, b: Books, env: Envelope)
    requires env.id in events && events[env.id] == env && env.body.TransferDispatched?
    ensures Judge(b, env).Some? <==> UnknownEvents(b.refs, env.body.lines) != [] || Refuses(b.refs, env.body.destination, env.body.lines)
    ensures Judge(b, env).Some? ==> RefusedDispatch(events, b.refs, env.body.transfer)
  {
  }

  lemma FailKeepsTransit(events: Envelopes, b: Books, t: string)
    requires TransitOk(events, b) && RefusedDispatch(events, b.refs, t)
    ensures TransitOk(events, FailTransfer(b, t))
  {
    hide QtyAt, FoldedSum, RefusedDispatch;
    var b' := FailTransfer(b, t);
    forall t', k' | (t', k') in b'.transit
      ensures RowOk(events, b', t', k')
    {
      assert RowOk(events, b, t', k');
      var d :| Backs(events, d, t', k', b.transit[(t', k')]);
      assert Backs(events, d, t', k', b'.transit[(t', k')]);
    }
    forall id, k | (id, k) in b'.folded
      ensures FoldOk(events, b', id, k)
    {
      assert FoldOk(events, b, id, k);
    }
  }

  lemma FailKeepsVerdict(events: Envelopes, b: Books, t: string, verdicts: Verdicts, id: EventId)
    requires EventsOk(events) && id in verdicts && VerdictStands(events, b, verdicts, id)
    ensures VerdictStands(events, FailTransfer(b, t), verdicts, id)
  {
    hide Judge;
    var b', env := FailTransfer(b, t), events[id];
    if env.body.TransferReceived? {
      JudgeReceived(b, b', env);
    } else {
      JudgeOther(b, b', env);
    }
  }

  /** Every store call of a record keeps the books consistent, every recorded verdict standing, and
      the verdict the attempt goes by what it was when the attempt began. */
  lemma RecordStepKeepsBooks(events: Envelopes, b: Books, verdicts: Verdicts, env: Envelope, rej: Option<Rejection>, i: nat)
    requires BooksOk(events, b, verdicts) && Admissible(events, verdicts, env) && env.id in events
    requires Judge(b, env) == rej && i < RecordSteps(env.body, rej) && RecordedTo(b, env, rej, i)
    ensures var b' := RecordStep(b, env, rej, i);
            BooksOk(events, b', verdicts) && Judge(b', env) == rej && RecordedTo(b', env, rej, i + 1)
  {
    hide Judge, BooksOk, RecordStep, RecordedTo;
    match env.body
    case GoodsReceived(_, _, _, _) => ReceiptStep(events, b, verdicts, env, rej);
    case TransferDispatched(_, _, _, lines) =>
      if i < |lines| { DispatchStep(events, b, verdicts, env, rej, i); } else { FailStep(events, b, verdicts, env, rej); }
    case TransferReceived(_, _) => FoldStep(events, b, verdicts, env, rej, i);
  }
}
