/** The in-memory fold of one warehouse node's log: stock per key, transfers, and receipts that
    came before their dispatch. What the fold computes is stated without an order, as sums over
    the events, and so it is the same in every order.
 */
module NodeState {
  import opened Stamps
  import opened Warehouse

  datatype StockKey = StockKey(sku: string, location: string, lot: string)

  type Stock = map<StockKey, real>

  type Totals = map<Key, real>

  datatype Transfer = Transfer(source: NodeId, destination: NodeId, dispatched: Totals, received: Totals, complete: bool)

  datatype State = State(stock: Stock, transfers: map<string, Transfer>, pending: map<string, seq<Movement>>)

  const NEW_STATE := State(map[], map[], map[])

  function FromKey(m: Movement): StockKey
  {
    StockKey(m.sku, m.src, m.lot)
  }

  function ToKey(m: Movement): StockKey
  {
    StockKey(m.sku, m.dst, m.lot)
  }

  // ---------------------------------------------------------------- the fold

  function OnHand(s: Stock, k: StockKey): real
  {
    if k in s then s[k] else 0.0
  }

  /** Zero balances are pruned, so a balance has one representation. */
  function Add(s: Stock, k: StockKey, delta: real): Stock
  {
    var v := OnHand(s, k) + delta;
    if v == 0.0 then s - {k} else s[k := v]
  }

  function Move(s: Stock, m: Movement): Stock
  {
    Add(Add(s, FromKey(m), -m.qty), ToKey(m), m.qty)
  }

  function MoveAll(s: Stock, ms: seq<Movement>): Stock
  {
    if ms == [] then s else Move(MoveAll(s, ms[..|ms| - 1]), ms[|ms| - 1])
  }

  function TotalAt(t: Totals, k: Key): real
  {
    if k in t then t[k] else 0.0
  }

  function Tally(t: Totals, ms: seq<Movement>): Totals
  {
    if ms == [] then t
    else
      var before := Tally(t, ms[..|ms| - 1]);
      var m := ms[|ms| - 1];
      before[KeyOf(m) := TotalAt(before, KeyOf(m)) + m.qty]
  }

  predicate FullyReceived(dispatched: Totals, received: Totals)
  {
    forall k :: k in dispatched ==> TotalAt(received, k) >= dispatched[k]
  }

  function Settled(t: Transfer): Transfer
  {
    if !t.complete && FullyReceived(t.dispatched, t.received) then t.(complete := true) else t
  }

  function PendingOf(s: State, transfer: string): seq<Movement>
  {
    if transfer in s.pending then s.pending[transfer] else []
  }

  /** A dispatch moves stock only at its source, and folds in the receipts that came first; those
      move stock only at the destination. */
  function Dispatched(home: NodeId, s: State, transfer: string, source: NodeId, destination: NodeId, lines: seq<Movement>): State
  {
    var t := if transfer in s.transfers then s.transfers[transfer] else Transfer(source, destination, map[], map[], false);
    var t1 := t.(dispatched := Tally(t.dispatched, lines));
    var stock1 := if home == source then MoveAll(s.stock, lines) else s.stock;
    if transfer !in s.pending then State(stock1, s.transfers[transfer := t1], s.pending)
    else
      var early := s.pending[transfer];
      State(if home == destination then MoveAll(stock1, early) else stock1,
            s.transfers[transfer := Settled(t1.(received := Tally(t1.received, early)))],
            s.pending - {transfer})
  }

  /** A receipt whose dispatch is not known yet is kept for later. */
  function Received(home: NodeId, s: State, transfer: string, lines: seq<Movement>): State
  {
    if transfer !in s.transfers then
      if lines == [] then s else s.(pending := s.pending[transfer := PendingOf(s, transfer) + lines])
    else
      var t := s.transfers[transfer];
      State(if home == t.destination then MoveAll(s.stock, lines) else s.stock,
            s.transfers[transfer := Settled(t.(received := Tally(t.received, lines)))],
            s.pending)
  }

  function Apply(home: NodeId, s: State, env: Envelope): State
  {
    match env.body
    case GoodsReceived(_, _, _, move) => s.(stock := Move(s.stock, move))
    case PutAway(move) => s.(stock := Move(s.stock, move))
    case Picked(move) => s.(stock := Move(s.stock, move))
    case StockAdjusted(move, _) => s.(stock := Move(s.stock, move))
    case TransferDispatched(transfer, source, destination, lines) => Dispatched(home, s, transfer, source, destination, lines)
    case TransferReceived(transfer, lines) => Received(home, s, transfer, lines)
    case _ => s
  }

  function Fold(home: NodeId, es: seq<Envelope>): State
  {
    if es == [] then NEW_STATE else Apply(home, Fold(home, es[..|es| - 1]), es[|es| - 1])
  }

  // ---------------------------------------------------------------- what it computes, without an order

  /** The net effect of movements on one balance. */
  function NetOf(m: Movement, k: StockKey): real
  {
    (if ToKey(m) == k then m.qty else 0.0) - (if FromKey(m) == k then m.qty else 0.0)
  }

  function Net(ms: seq<Movement>, k: StockKey): real
  {
    if ms == [] then 0.0 else Net(ms[..|ms| - 1], k) + NetOf(ms[|ms| - 1], k)
  }

  function QtyOf(ms: seq<Movement>, k: Key): real
  {
    if ms == [] then 0.0 else QtyOf(ms[..|ms| - 1], k) + if KeyOf(ms[|ms| - 1]) == k then ms[|ms| - 1].qty else 0.0
  }

  /** Where each dispatched transfer is headed. */
  type Headings = map<string, NodeId>

  /** The movements an event makes at home, given which transfers were dispatched to where. */
  function MovesAt(home: NodeId, to: Headings, body: Payload): seq<Movement>
  {
    match body
    case GoodsReceived(_, _, _, move) => [move]
    case PutAway(move) => [move]
    case Picked(move) => [move]
    case StockAdjusted(move, _) => [move]
    case TransferDispatched(_, source, _, lines) => if home == source then lines else []
    case TransferReceived(transfer, lines) => if transfer in to && to[transfer] == home then lines else []
    case _ => []
  }

  function NetSum(home: NodeId, to: Headings, es: seq<Envelope>, k: StockKey): real
  {
    if es == [] then 0.0 else NetSum(home, to, es[..|es| - 1], k) + Net(MovesAt(home, to, es[|es| - 1].body), k)
  }

  function ReceiptLines(body: Payload, transfer: string): seq<Movement>
  {
    if body.TransferReceived? && body.transfer == transfer then body.lines else []
  }

  /** All lines received against a transfer, in the order they came. */
  function AllReceived(es: seq<Envelope>, transfer: string): seq<Movement>
  {
    if es == [] then [] else AllReceived(es[..|es| - 1], transfer) + ReceiptLines(es[|es| - 1].body, transfer)
  }

  function HeadingsOf(es: seq<Envelope>): Headings
  {
    if es == [] then map[]
    else
      var before, body := HeadingsOf(es[..|es| - 1]), es[|es| - 1].body;
      if body.TransferDispatched? then before[body.transfer := body.destination] else before
  }

  /** Transfer lines are not empty and positive, and a transfer is dispatched at most once. */
  ghost predicate Sane(es: seq<Envelope>)
  {
    && (forall i :: 0 <= i < |es| && (es[i].body.TransferDispatched? || es[i].body.TransferReceived?) ==>
          es[i].body.lines != [] && Positive(es[i].body.lines))
    && (forall i, j, t :: 0 <= i < |es| && 0 <= j < |es| && Dispatches(es[i].body, t) && Dispatches(es[j].body, t) ==> i == j)
  }

  ghost predicate TransferIs(t: Transfer, body: Payload, received: seq<Movement>)
  {
    && body.TransferDispatched? && t.source == body.source && t.destination == body.destination
    && (forall k :: k in t.dispatched <==> Mentions(body.lines, k))
    && (forall k :: TotalAt(t.dispatched, k) == QtyOf(body.lines, k))
    && (forall k :: k in t.received <==> Mentions(received, k))
    && (forall k :: TotalAt(t.received, k) == QtyOf(received, k))
    && (t.complete <==> InFull(body.lines, received))
  }

  /** Of every key sent, at least as much was received. */
  ghost predicate InFull(sent: seq<Movement>, received: seq<Movement>)
  {
    forall k :: Mentions(sent, k) ==> QtyOf(received, k) >= QtyOf(sent, k)
  }

  lemma FullyReceivedIff(dispatched: Totals, received: Totals, sent: seq<Movement>, got: seq<Movement>)
    requires forall k :: (k in dispatched <==> Mentions(sent, k)) && TotalAt(dispatched, k) == QtyOf(sent, k)
    requires forall k :: TotalAt(received, k) == QtyOf(got, k)
    ensures FullyReceived(dispatched, received) <==> InFull(sent, got)
  {
    hide Mentions, QtyOf;
    if FullyReceived(dispatched, received) {
      forall k | Mentions(sent, k)
        ensures QtyOf(got, k) >= QtyOf(sent, k)
      {
        assert TotalAt(dispatched, k) == dispatched[k];
      }
    }
    if InFull(sent, got) {
      forall k | k in dispatched
        ensures TotalAt(received, k) >= dispatched[k]
      {
        assert TotalAt(dispatched, k) == dispatched[k];
      }
    }
  }

  ghost predicate StockMeans(home: NodeId, es: seq<Envelope>, stock: Stock)
  {
    Pruned(stock) && forall k :: OnHand(stock, k) == NetSum(home, HeadingsOf(es), es, k)
  }

  ghost predicate TransfersMean(es: seq<Envelope>, transfers: map<string, Transfer>)
  {
    && transfers.Keys == HeadingsOf(es).Keys
    && forall i :: 0 <= i < |es| && es[i].body.TransferDispatched? ==>
         && es[i].body.transfer in transfers
         && TransferIs(transfers[es[i].body.transfer], es[i].body, AllReceived(es, es[i].body.transfer))
  }

  ghost predicate PendingMeans(es: seq<Envelope>, s: State)
  {
    && (forall t :: t in s.pending ==> t !in s.transfers && s.pending[t] != [])
    && (forall t :: t !in s.transfers ==> PendingOf(s, t) == AllReceived(es, t))
  }

  /** The state of a log: every balance is the sum of the movements made at home, every dispatched
      transfer carries its totals, and receipts wait exactly when their dispatch is missing. */
  ghost predicate Means(home: NodeId, es: seq<Envelope>, s: State)
  {
    StockMeans(home, es, s.stock) && TransfersMean(es, s.transfers) && PendingMeans(es, s)
  }

  ghost predicate Pruned(s: Stock)
  {
    forall k :: k in s ==> s[k] != 0.0
  }

  // ---------------------------------------------------------------- balances and totals

  lemma OnHandMove(s: Stock, m: Movement, k: StockKey)
    ensures OnHand(Move(s, m), k) == OnHand(s, k) + NetOf(m, k)
  {
  }

  lemma MovePrunes(s: Stock, m: Movement)
    requires Pruned(s)
    ensures Pruned(Move(s, m))
  {
  }

  lemma {:induction false} OnHandMoveAll(s: Stock, ms: seq<Movement>, k: StockKey)
    ensures OnHand(MoveAll(s, ms), k) == OnHand(s, k) + Net(ms, k)
  {
    hide Move, NetOf;
    if ms != [] {
      OnHandMoveAll(s, ms[..|ms| - 1], k);
      OnHandMove(MoveAll(s, ms[..|ms| - 1]), ms[|ms| - 1], k);
    }
  }

  lemma {:induction false} MoveAllPrunes(s: Stock, ms: seq<Movement>)
    requires Pruned(s)
    ensures Pruned(MoveAll(s, ms))
  {
    hide Move;
    if ms != [] {
      MoveAllPrunes(s, ms[..|ms| - 1]);
      MovePrunes(MoveAll(s, ms[..|ms| - 1]), ms[|ms| - 1]);
    }
  }

  lemma {:induction false} TallyAt(t: Totals, ms: seq<Movement>, k: Key)
    ensures TotalAt(Tally(t, ms), k) == TotalAt(t, k) + QtyOf(ms, k)
    ensures k in Tally(t, ms) <==> k in t || Mentions(ms, k)
  {
    if ms != [] {
      var init := ms[..|ms| - 1];
      TallyAt(t, init, k);
      assert Mentions(ms, k) <==> Mentions(init, k) || KeyOf(ms[|ms| - 1]) == k by {
        if Mentions(init, k) {
          var i :| 0 <= i < |init| && KeyOf(init[i]) == k;
          assert KeyOf(ms[i]) == k;
        }
      }
    }
  }

  lemma {:induction false} NetConcat(a: seq<Movement>, b: seq<Movement>, k: StockKey)
    ensures Net(a + b, k) == Net(a, k) + Net(b, k)
    decreases |b|
  {
    hide NetOf;
    if b == [] {
      assert a + b == a;
    } else {
      assert (a + b)[..|a + b| - 1] == a + b[..|b| - 1];
      NetConcat(a, b[..|b| - 1], k);
    }
  }

  lemma {:induction false} QtyConcat(a: seq<Movement>, b: seq<Movement>, k: Key)
    ensures QtyOf(a + b, k) == QtyOf(a, k) + QtyOf(b, k)
    decreases |b|
  {
    if b == [] {
      assert a + b == a;
    } else {
      assert (a + b)[..|a + b| - 1] == a + b[..|b| - 1];
      QtyConcat(a, b[..|b| - 1], k);
    }
  }

  lemma MentionsConcat(a: seq<Movement>, b: seq<Movement>, k: Key)
    ensures Mentions(a + b, k) <==> Mentions(a, k) || Mentions(b, k)
  {
    if Mentions(a, k) {
      var i :| 0 <= i < |a| && KeyOf(a[i]) == k;
      assert KeyOf((a + b)[i]) == k;
    }
    if Mentions(b, k) {
      var i :| 0 <= i < |b| && KeyOf(b[i]) == k;
      assert KeyOf((a + b)[|a| + i]) == k;
    }
  }

  lemma {:induction false} QtyPositive(ms: seq<Movement>, k: Key)
    requires Positive(ms)
    ensures QtyOf(ms, k) >= 0.0 && (Mentions(ms, k) ==> QtyOf(ms, k) > 0.0)
  {
    if ms != [] {
      var init := ms[..|ms| - 1];
      QtyPositive(init, k);
      assert Mentions(ms, k) && KeyOf(ms[|ms| - 1]) != k ==> Mentions(init, k) by {
        if Mentions(ms, k) && KeyOf(ms[|ms| - 1]) != k {
          var i :| 0 <= i < |ms| && KeyOf(ms[i]) == k;
          assert KeyOf(init[i]) == k;
        }
      }
    }
  }

  // ---------------------------------------------------------------- sums as events arrive

  lemma {:induction false} NewHeading(home: NodeId, to: Headings, t: string, dest: NodeId, es: seq<Envelope>, k: StockKey)
    requires t !in to
    ensures NetSum(home, to[t := dest], es, k) == NetSum(home, to, es, k) + if dest == home then Net(AllReceived(es, t), k) else 0.0
  {
    hide Net, MovesAt, ReceiptLines;
    NoMoves(k);
    if es != [] {
      var init, body := es[..|es| - 1], es[|es| - 1].body;
      NewHeading(home, to, t, dest, init, k);
      NetConcat(AllReceived(init, t), ReceiptLines(body, t), k);
      MovesUnder(home, to, t, dest, body, k);
    }
  }

  lemma MovesUnder(home: NodeId, to: Headings, t: string, dest: NodeId, body: Payload, k: StockKey)
    requires t !in to
    ensures Net(MovesAt(home, to[t := dest], body), k)
         == Net(MovesAt(home, to, body), k) + if dest == home then Net(ReceiptLines(body, t), k) else 0.0
  {
  }

  lemma Snoc(es: seq<Envelope>, e: Envelope)
    ensures forall home, to, k :: NetSum(home, to, es + [e], k) == NetSum(home, to, es, k) + Net(MovesAt(home, to, e.body), k)
    ensures forall t :: AllReceived(es + [e], t) == AllReceived(es, t) + ReceiptLines(e.body, t)
    ensures HeadingsOf(es + [e]) == if e.body.TransferDispatched? then HeadingsOf(es)[e.body.transfer := e.body.destination] else HeadingsOf(es)
  {
  }

  lemma NoMoves(k: StockKey)
    ensures Net([], k) == 0.0
  {
  }

  lemma {:induction false} HeadingsAre(es: seq<Envelope>, t: string)
    ensures t in HeadingsOf(es) <==> exists i :: 0 <= i < |es| && Dispatches(es[i].body, t)
  {
    if es != [] {
      var init := es[..|es| - 1];
      HeadingsAre(init, t);
      assert forall i :: 0 <= i < |init| ==> init[i] == es[i];
      if t in HeadingsOf(es) && t !in HeadingsOf(init) {
        assert Dispatches(es[|es| - 1].body, t);
      }
    }
  }

  lemma SaneInit(es: seq<Envelope>, e: Envelope)
    requires Sane(es + [e])
    ensures Sane(es)
    ensures e.body.TransferDispatched? || e.body.TransferReceived? ==> e.body.lines != [] && Positive(e.body.lines)
    ensures e.body.TransferDispatched? ==> e.body.transfer !in HeadingsOf(es)
  {
    var all := es + [e];
    assert all[|es|] == e && forall i :: 0 <= i < |es| ==> all[i] == es[i];
    forall i, j, t | 0 <= i < |es| && 0 <= j < |es| && Dispatches(es[i].body, t) && Dispatches(es[j].body, t)
      ensures i == j
    {
      assert Dispatches(all[i].body, t) && Dispatches(all[j].body, t);
    }
    if e.body.TransferDispatched? {
      HeadingsAre(es, e.body.transfer);
      forall i | 0 <= i < |es|
        ensures !Dispatches(es[i].body, e.body.transfer)
      {
        assert Dispatches(all[|es|].body, e.body.transfer);
        assert Dispatches(all[i].body, e.body.transfer) ==> i == |es|;
      }
    }
  }

  /** Moving what an event moves at home keeps the balances in step, as long as the event sets no
      new heading. */
  lemma StockStep(home: NodeId, es: seq<Envelope>, stock: Stock, e: Envelope)
    requires StockMeans(home, es, stock) && !e.body.TransferDispatched?
    ensures StockMeans(home, es + [e], MoveAll(stock, MovesAt(home, HeadingsOf(es), e.body)))
  {
    hide NetSum, HeadingsOf, Net, MoveAll, MovesAt, AllReceived, Pruned;
    Snoc(es, e);
    var moves := MovesAt(home, HeadingsOf(es), e.body);
    MoveAllPrunes(stock, moves);
    forall k
      ensures OnHand(MoveAll(stock, moves), k) == NetSum(home, HeadingsOf(es + [e]), es + [e], k)
    {
      OnHandMoveAll(stock, moves, k);
    }
  }

  lemma MoveAllFew(stock: Stock, m: Movement)
    ensures MoveAll(stock, []) == stock && MoveAll(stock, [m]) == Move(stock, m)
  {
  }

  /** An event that receives nothing against any transfer leaves the transfers' meaning alone. */
  lemma TransfersStay(es: seq<Envelope>, s: State, e: Envelope)
    requires TransfersMean(es, s.transfers) && PendingMeans(es, s) && !e.body.TransferDispatched? && !e.body.TransferReceived?
    ensures TransfersMean(es + [e], s.transfers) && PendingMeans(es + [e], s)
  {
    hide NetSum, HeadingsOf, AllReceived, TransferIs;
    Snoc(es, e);
    assert forall t :: AllReceived(es, t) + [] == AllReceived(es, t);
    assert forall i :: 0 <= i < |es| ==> (es + [e])[i] == es[i];
  }

  /** An event that is neither half of a transfer. */
  lemma PlainStep(home: NodeId, es: seq<Envelope>, s: State, e: Envelope)
    requires Means(home, es, s) && !e.body.TransferDispatched? && !e.body.TransferReceived?
    ensures Means(home, es + [e], Apply(home, s, e))
  {
    hide StockMeans, TransfersMean, PendingMeans, Move, MoveAll, HeadingsOf;
    StockStep(home, es, s.stock, e);
    TransfersStay(es, s, e);
    var moves := MovesAt(home, HeadingsOf(es), e.body);
    if moves != [] {
      MoveAllFew(s.stock, moves[0]);
      assert moves == [moves[0]];
    } else {
      MoveAllFew(s.stock, Movement("", "", "", "", 0.0));
    }
    PendingSame(es + [e], s, Apply(home, s, e));
  }

  lemma PendingSame(es: seq<Envelope>, s: State, s': State)
    requires PendingMeans(es, s) && s'.transfers == s.transfers && s'.pending == s.pending
    ensures PendingMeans(es, s')
  {
  }

  lemma ReceivedTotals(t: Transfer, body: Payload, before: seq<Movement>, lines: seq<Movement>)
    requires TransferIs(t, body, before) && Positive(lines)
    ensures TransferIs(Settled(t.(received := Tally(t.received, lines))), body, before + lines)
  {
    var t' := t.(received := Tally(t.received, lines));
    forall k
      ensures TotalAt(t'.received, k) == QtyOf(before + lines, k) && TotalAt(t'.received, k) >= TotalAt(t.received, k)
      ensures k in t'.received <==> Mentions(before + lines, k)
    {
      TallyAt(t.received, lines, k);
      QtyConcat(before, lines, k);
      MentionsConcat(before, lines, k);
      QtyPositive(lines, k);
    }
    FullyReceivedIff(t.dispatched, t'.received, body.lines, before + lines);
    hide Mentions, QtyOf, Tally;
    assert forall k :: QtyOf(before + lines, k) >= QtyOf(before, k);
  }

  lemma ReceivedTransfers(es: seq<Envelope>, s: State, e: Envelope, home: NodeId)
    requires Sane(es + [e]) && TransfersMean(es, s.transfers) && e.body.TransferReceived?
    ensures TransfersMean(es + [e], Apply(home, s, e).transfers)
  {
    hide NetSum, HeadingsOf, AllReceived, TransferIs, Settled, Tally, MoveAll, Positive, Sane, PendingOf;
    SaneInit(es, e);
    Snoc(es, e);
    var all, s', t, lines := es + [e], Apply(home, s, e), e.body.transfer, e.body.lines;
    assert forall u :: AllReceived(es, u) + [] == AllReceived(es, u);
    forall i | 0 <= i < |all| && all[i].body.TransferDispatched?
      ensures all[i].body.transfer in s'.transfers
      ensures TransferIs(s'.transfers[all[i].body.transfer], all[i].body, AllReceived(all, all[i].body.transfer))
    {
      assert all[i] == es[i];
      if all[i].body.transfer == t {
        ReceivedTotals(s.transfers[t], es[i].body, AllReceived(es, t), lines);
      }
    }
  }

  lemma ReceivedPending(es: seq<Envelope>, s: State, e: Envelope, home: NodeId)
    requires PendingMeans(es, s) && e.body.TransferReceived?
    ensures PendingMeans(es + [e], Apply(home, s, e))
  {
    hide NetSum, HeadingsOf, AllReceived, Settled, Tally, MoveAll;
    Snoc(es, e);
    var all, s', t := es + [e], Apply(home, s, e), e.body.transfer;
    forall u | u !in s'.transfers
      ensures PendingOf(s', u) == AllReceived(all, u)
    {
      assert AllReceived(all, u) == if u == t then AllReceived(es, t) + e.body.lines else AllReceived(es, u) + [];
      assert PendingOf(s, u) == AllReceived(es, u);
    }
  }

  lemma ReceivedStep(home: NodeId, es: seq<Envelope>, s: State, e: Envelope)
    requires Sane(es + [e]) && Means(home, es, s) && e.body.TransferReceived?
    ensures Means(home, es + [e], Apply(home, s, e))
  {
    hide StockMeans, TransfersMean, PendingMeans, MoveAll, HeadingsOf, Tally, Settled, Sane;
    StockStep(home, es, s.stock, e);
    MoveAllFew(s.stock, Movement("", "", "", "", 0.0));
    SaneInit(es, e);
    DestinationIsHeading(home, es, s, e.body.transfer);
    ReceivedTransfers(es, s, e, home);
    ReceivedPending(es, s, e, home);
  }

  lemma DestinationIsHeading(home: NodeId, es: seq<Envelope>, s: State, t: string)
    requires Means(home, es, s) && Sane(es)
    ensures t in s.transfers <==> t in HeadingsOf(es)
    ensures t in s.transfers ==> s.transfers[t].destination == HeadingsOf(es)[t]
  {
    hide NetSum, AllReceived;
    if t in s.transfers {
      HeadingFrom(es, t);
      var i :| 0 <= i < |es| && Dispatches(es[i].body, t) && HeadingsOf(es)[t] == es[i].body.destination;
      assert TransferIs(s.transfers[t], es[i].body, AllReceived(es, t));
    }
  }

  lemma {:induction false} HeadingFrom(es: seq<Envelope>, t: string)
    requires t in HeadingsOf(es)
    ensures exists i :: 0 <= i < |es| && Dispatches(es[i].body, t) && HeadingsOf(es)[t] == es[i].body.destination
  {
    var init, last := es[..|es| - 1], es[|es| - 1];
    if Dispatches(last.body, t) {
      assert HeadingsOf(es)[t] == es[|es| - 1].body.destination;
    } else {
      HeadingFrom(init, t);
      var i :| 0 <= i < |init| && Dispatches(init[i].body, t) && HeadingsOf(init)[t] == init[i].body.destination;
      assert es[i] == init[i];
    }
  }

  lemma NewTransferTotals(body: Payload, early: seq<Movement>)
    requires body.TransferDispatched? && body.lines != [] && Positive(body.lines)
    ensures var t := Transfer(body.source, body.destination, Tally(map[], body.lines), map[], false);
            && TransferIs(t, body, [])
            && TransferIs(Settled(t.(received := Tally(map[], early))), body, early)
  {
    var t := Transfer(body.source, body.destination, Tally(map[], body.lines), map[], false);
    forall k
      ensures TotalAt(t.dispatched, k) == QtyOf(body.lines, k) && (k in t.dispatched <==> Mentions(body.lines, k))
      ensures TotalAt(Tally(map[], early), k) == QtyOf(early, k) && (k in Tally(map[], early) <==> Mentions(early, k))
    {
      TallyAt(map[], body.lines, k);
      TallyAt(map[], early, k);
    }
    var k := KeyOf(body.lines[0]);
    assert Mentions(body.lines, k);
    QtyPositive(body.lines, k);
    assert !FullyReceived(t.dispatched, map[]) by { assert k in t.dispatched; }
    NothingTallied();
    FullyReceivedIff(t.dispatched, map[], body.lines, []);
    FullyReceivedIff(t.dispatched, Tally(map[], early), body.lines, early);
  }

  lemma NothingTallied()
    ensures forall k :: QtyOf([], k) == 0.0 && !Mentions([], k)
  {
  }

  lemma DispatchedStock(home: NodeId, es: seq<Envelope>, s: State, e: Envelope)
    requires StockMeans(home, es, s.stock) && e.body.TransferDispatched? && e.body.transfer !in HeadingsOf(es)
    requires PendingOf(s, e.body.transfer) == AllReceived(es, e.body.transfer)
    ensures StockMeans(home, es + [e], Apply(home, s, e).stock)
  {
    hide NetSum, HeadingsOf, AllReceived, Net, MoveAll, Tally, Settled, Pruned;
    Snoc(es, e);
    var g := e.body;
    var early, stock1 := PendingOf(s, g.transfer), if home == g.source then MoveAll(s.stock, g.lines) else s.stock;
    MoveAllFew(stock1, Movement("", "", "", "", 0.0));
    MoveAllPrunes(s.stock, g.lines);
    MoveAllPrunes(stock1, early);
    forall k
      ensures OnHand(Apply(home, s, e).stock, k) == NetSum(home, HeadingsOf(es + [e]), es + [e], k)
    {
      OnHandMoveAll(s.stock, g.lines, k);
      OnHandMoveAll(stock1, early, k);
      NewHeading(home, HeadingsOf(es), g.transfer, g.destination, es, k);
      NoMoves(k);
    }
  }

  lemma DispatchedTransfers(home: NodeId, es: seq<Envelope>, s: State, e: Envelope)
    requires Sane(es + [e]) && TransfersMean(es, s.transfers) && PendingMeans(es, s) && e.body.TransferDispatched?
    requires e.body.transfer !in HeadingsOf(es)
    ensures TransfersMean(es + [e], Apply(home, s, e).transfers)
  {
    hide NetSum, HeadingsOf, AllReceived, TransferIs, Settled, Tally, MoveAll, Positive, Sane;
    SaneInit(es, e);
    Snoc(es, e);
    var all, s', g := es + [e], Apply(home, s, e), e.body;
    assert forall u :: AllReceived(es, u) + [] == AllReceived(es, u);
    NewTransferTotals(g, PendingOf(s, g.transfer));
    forall i | 0 <= i < |all| && all[i].body.TransferDispatched?
      ensures all[i].body.transfer in s'.transfers
      ensures TransferIs(s'.transfers[all[i].body.transfer], all[i].body, AllReceived(all, all[i].body.transfer))
    {
      if i < |es| { assert all[i] == es[i] && es[i].body.transfer in s.transfers; }
    }
  }

  lemma DispatchedPending(home: NodeId, es: seq<Envelope>, s: State, e: Envelope)
    requires PendingMeans(es, s) && e.body.TransferDispatched?
    ensures PendingMeans(es + [e], Apply(home, s, e))
  {
    hide NetSum, HeadingsOf, AllReceived, Settled, Tally, MoveAll;
    Snoc(es, e);
    assert forall u :: AllReceived(es, u) + [] == AllReceived(es, u);
  }

  lemma DispatchedStep(home: NodeId, es: seq<Envelope>, s: State, e: Envelope)
    requires Sane(es + [e]) && Means(home, es, s) && e.body.TransferDispatched?
    ensures Means(home, es + [e], Apply(home, s, e))
  {
    hide StockMeans, Apply, HeadingsOf, Sane, AllReceived, TransferIs;
    SaneInit(es, e);
    DispatchedStock(home, es, s, e);
    DispatchedTransfers(home, es, s, e);
    DispatchedPending(home, es, s, e);
  }

  /** The fold of any log with sane transfers, in any order, means what the log means. */
  lemma {:induction false} FoldMeans(home: NodeId, es: seq<Envelope>)
    requires Sane(es)
    ensures Means(home, es, Fold(home, es))
  {
    hide Means, Apply, Sane;
    if es == [] {
      NothingMeans(home);
    } else {
      var init, e := es[..|es| - 1], es[|es| - 1];
      assert es == init + [e];
      SaneInit(init, e);
      FoldMeans(home, init);
      if e.body.TransferDispatched? {
        DispatchedStep(home, init, Fold(home, init), e);
      } else if e.body.TransferReceived? {
        ReceivedStep(home, init, Fold(home, init), e);
      } else {
        PlainStep(home, init, Fold(home, init), e);
      }
    }
  }

  /** In whatever order the log is folded: a transfer is known exactly when its dispatch is in the log,
      and complete exactly when of every key dispatched at least as much was received. */
  lemma TransferCompleteIff(home: NodeId, es: seq<Envelope>, i: nat)
    requires Sane(es) && i < |es| && es[i].body.TransferDispatched?
    ensures var t, ts := es[i].body.transfer, Fold(home, es).transfers;
            t in ts && (ts[t].complete <==> forall k :: Mentions(es[i].body.lines, k) ==> QtyOf(AllReceived(es, t), k) >= QtyOf(es[i].body.lines, k))
  {
    hide Sane, Fold, StockMeans, PendingMeans;
    FoldMeans(home, es);
  }

  /** A second dispatch of a transfer adds to what was dispatched; where it comes from and goes to stays. */
  lemma DispatchAgainAdds(home: NodeId, s: State, e: Envelope, k: Key)
    requires e.body.TransferDispatched? && e.body.transfer in s.transfers
    ensures var was, now := s.transfers[e.body.transfer], Apply(home, s, e).transfers;
            && e.body.transfer in now
            && now[e.body.transfer].source == was.source && now[e.body.transfer].destination == was.destination
            && TotalAt(now[e.body.transfer].dispatched, k) == TotalAt(was.dispatched, k) + QtyOf(e.body.lines, k)
            && TotalAt(now[e.body.transfer].received, k) == TotalAt(was.received, k) + QtyOf(PendingOf(s, e.body.transfer), k)
  {
    TallyAt(s.transfers[e.body.transfer].dispatched, e.body.lines, k);
    TallyAt(s.transfers[e.body.transfer].received, PendingOf(s, e.body.transfer), k);
    NothingTallied();
  }

  lemma NothingMeans(home: NodeId)
    ensures Means(home, [], NEW_STATE)
  {
  }

  // ---------------------------------------------------------------- order independence

  lemma {:induction false} NetSumConcat(home: NodeId, to: Headings, a: seq<Envelope>, b: seq<Envelope>, k: StockKey)
    ensures NetSum(home, to, a + b, k) == NetSum(home, to, a, k) + NetSum(home, to, b, k)
    decreases |b|
  {
    hide Net, MovesAt;
    if b == [] {
      assert a + b == a;
    } else {
      assert (a + b)[..|a + b| - 1] == a + b[..|b| - 1];
      NetSumConcat(home, to, a, b[..|b| - 1], k);
    }
  }

  lemma {:induction false} ReceivedConcat(a: seq<Envelope>, b: seq<Envelope>, t: string)
    ensures AllReceived(a + b, t) == AllReceived(a, t) + AllReceived(b, t)
    decreases |b|
  {
    hide ReceiptLines;
    if b == [] {
      assert a + b == a;
    } else {
      assert (a + b)[..|a + b| - 1] == a + b[..|b| - 1];
      ReceivedConcat(a, b[..|b| - 1], t);
    }
  }

  /** es without the element at i, and what the sums lose with it. */
  lemma WithoutOne(home: NodeId, to: Headings, fs: seq<Envelope>, i: nat, k: StockKey, t: string, key: Key)
    requires i < |fs|
    ensures var rest := fs[..i] + fs[i + 1..];
            && multiset(fs) == multiset(rest) + multiset{fs[i]}
            && NetSum(home, to, fs, k) == NetSum(home, to, rest, k) + Net(MovesAt(home, to, fs[i].body), k)
            && QtyOf(AllReceived(fs, t), key) == QtyOf(AllReceived(rest, t), key) + QtyOf(ReceiptLines(fs[i].body, t), key)
            && multiset(AllReceived(fs, t)) == multiset(AllReceived(rest, t)) + multiset(ReceiptLines(fs[i].body, t))
  {
    hide Net, MovesAt, ReceiptLines, QtyOf, AllReceived, NetSum;
    var a, e, b := fs[..i], fs[i], fs[i + 1..];
    assert fs == (a + [e]) + b;
    NetSumConcat(home, to, a + [e], b, k);
    NetSumConcat(home, to, a, b, k);
    ReceivedConcat(a + [e], b, t);
    ReceivedConcat(a, b, t);
    Snoc(a, e);
    QtyConcat(AllReceived(a + [e], t), AllReceived(b, t), key);
    QtyConcat(AllReceived(a, t), ReceiptLines(e.body, t), key);
    QtyConcat(AllReceived(a, t), AllReceived(b, t), key);
  }

  lemma TakeAway(a: multiset<Envelope>, b: multiset<Envelope>, e: Envelope)
    requires a + multiset{e} == b + multiset{e}
    ensures a == b
  {
    assert a == (a + multiset{e}) - multiset{e};
    assert b == (b + multiset{e}) - multiset{e};
  }

  /** Sums over a log do not depend on its order. */
  lemma {:induction false} SumsPermute(home: NodeId, to: Headings, es: seq<Envelope>, fs: seq<Envelope>, k: StockKey, t: string, key: Key)
    requires multiset(es) == multiset(fs)
    ensures NetSum(home, to, es, k) == NetSum(home, to, fs, k)
    ensures QtyOf(AllReceived(es, t), key) == QtyOf(AllReceived(fs, t), key)
    ensures multiset(AllReceived(es, t)) == multiset(AllReceived(fs, t))
    decreases |es|
  {
    hide Net, MovesAt, ReceiptLines, QtyOf, AllReceived, NetSum;
    if es == [] {
      assert |multiset(fs)| == 0;
      assert fs == [];
    } else {
      var last := |es| - 1;
      var e := es[last];
      assert e in multiset(es);
      assert e in multiset(fs);
      var i :| 0 <= i < |fs| && fs[i] == e;
      WithoutOne(home, to, es, last, k, t, key);
      WithoutOne(home, to, fs, i, k, t, key);
      assert es[..last] + es[last + 1..] == es[..last];
      TakeAway(multiset(es[..last]), multiset(fs[..i] + fs[i + 1..]), e);
      SumsPermute(home, to, es[..last], fs[..i] + fs[i + 1..], k, t, key);
    }
  }

  lemma {:induction false} ReceivedFrom(es: seq<Envelope>, t: string, key: Key)
    ensures Mentions(AllReceived(es, t), key) <==> exists e :: e in es && Mentions(ReceiptLines(e.body, t), key)
  {
    hide ReceiptLines, Mentions;
    if es == [] {
      assert !Mentions([], key) by { NothingMentioned(key); }
    } else {
      var init, last := es[..|es| - 1], es[|es| - 1];
      ReceivedFrom(init, t, key);
      MentionsConcat(AllReceived(init, t), ReceiptLines(last.body, t), key);
      assert forall e :: e in es <==> e in init || e == last;
    }
  }

  lemma NothingMentioned(key: Key)
    ensures !Mentions([], key)
  {
  }

  /** es lists the log, each envelope once. */
  ghost predicate Lists(es: seq<Envelope>, log: set<Envelope>)
  {
    && (forall e :: e in es <==> e in log)
    && (forall i, j :: 0 <= i < j < |es| ==> es[i] != es[j])
  }

  /** Every transfer of the log has at most one dispatch, and its lines are positive. */
  ghost predicate SaneLog(log: set<Envelope>)
  {
    && (forall e :: e in log && (e.body.TransferDispatched? || e.body.TransferReceived?) ==> e.body.lines != [] && Positive(e.body.lines))
    && (forall d, e, t :: d in log && e in log && Dispatches(d.body, t) && Dispatches(e.body, t) ==> d == e)
  }

  /** No receipt of the log is without its dispatch. */
  ghost predicate NoneMissing(log: set<Envelope>)
  {
    forall e :: e in log && e.body.TransferReceived? ==> exists d :: d in log && Dispatches(d.body, e.body.transfer)
  }

  lemma ListsAreSane(es: seq<Envelope>, log: set<Envelope>)
    requires Lists(es, log) && SaneLog(log)
    ensures Sane(es)
  {
  }

  lemma {:induction false} ListsCount(es: seq<Envelope>, log: set<Envelope>)
    requires Lists(es, log)
    ensures multiset(es) == multiset(log)
    decreases |es|
  {
    if es == [] {
      assert log == {};
    } else {
      var init, e := es[..|es| - 1], es[|es| - 1];
      assert es == init + [e];
      assert e !in init;
      ListsCount(init, log - {e});
    }
  }

  lemma SameHeadings(es: seq<Envelope>, fs: seq<Envelope>, log: set<Envelope>)
    requires Lists(es, log) && Lists(fs, log) && SaneLog(log)
    ensures HeadingsOf(es) == HeadingsOf(fs)
  {
    hide SaneLog;
    HeadingsWithin(es, fs, log);
    HeadingsWithin(fs, es, log);
  }

  lemma HeadingsWithin(es: seq<Envelope>, fs: seq<Envelope>, log: set<Envelope>)
    requires Lists(es, log) && Lists(fs, log) && SaneLog(log)
    ensures forall t :: t in HeadingsOf(es) ==> t in HeadingsOf(fs) && HeadingsOf(fs)[t] == HeadingsOf(es)[t]
  {
    forall t | t in HeadingsOf(es)
      ensures t in HeadingsOf(fs) && HeadingsOf(fs)[t] == HeadingsOf(es)[t]
    {
      HeadingFrom(es, t);
      var i :| 0 <= i < |es| && Dispatches(es[i].body, t) && HeadingsOf(es)[t] == es[i].body.destination;
      assert es[i] in log && es[i] in fs;
      HeadingsAre(fs, t);
      HeadingFrom(fs, t);
      var j :| 0 <= j < |fs| && Dispatches(fs[j].body, t) && HeadingsOf(fs)[t] == fs[j].body.destination;
      assert fs[j] in log;
    }
  }

  lemma SameTransfer(a: Transfer, b: Transfer, body: Payload, r: seq<Movement>, q: seq<Movement>)
    requires TransferIs(a, body, r) && TransferIs(b, body, q)
    requires forall k :: QtyOf(r, k) == QtyOf(q, k) && (Mentions(r, k) <==> Mentions(q, k))
    ensures a == b
  {
    hide QtyOf, Mentions;
    forall k
      ensures TotalAt(a.dispatched, k) == TotalAt(b.dispatched, k) && TotalAt(a.received, k) == TotalAt(b.received, k)
      ensures (k in a.dispatched <==> k in b.dispatched) && (k in a.received <==> k in b.received)
    {
    }
    assert a.dispatched.Keys == b.dispatched.Keys && a.received.Keys == b.received.Keys;
    forall k | k in a.dispatched
      ensures a.dispatched[k] == b.dispatched[k]
    {
      assert TotalAt(a.dispatched, k) == TotalAt(b.dispatched, k);
    }
    forall k | k in a.received
      ensures a.received[k] == b.received[k]
    {
      assert TotalAt(a.received, k) == TotalAt(b.received, k);
    }
    assert a.dispatched == b.dispatched && a.received == b.received;
  }

  lemma SameReceived(es: seq<Envelope>, fs: seq<Envelope>, log: set<Envelope>, t: string)
    requires Lists(es, log) && Lists(fs, log)
    ensures forall k :: QtyOf(AllReceived(es, t), k) == QtyOf(AllReceived(fs, t), k)
    ensures forall k :: Mentions(AllReceived(es, t), k) <==> Mentions(AllReceived(fs, t), k)
  {
    hide QtyOf, AllReceived, Mentions, NetSum;
    ListsCount(es, log);
    ListsCount(fs, log);
    forall k
      ensures QtyOf(AllReceived(es, t), k) == QtyOf(AllReceived(fs, t), k)
      ensures Mentions(AllReceived(es, t), k) <==> Mentions(AllReceived(fs, t), k)
    {
      SumsPermute("", map[], es, fs, StockKey("", "", ""), t, k);
      ReceivedFrom(es, t, k);
      ReceivedFrom(fs, t, k);
    }
  }

  lemma SameStock(home: NodeId, es: seq<Envelope>, fs: seq<Envelope>, log: set<Envelope>, a: Stock, b: Stock)
    requires Lists(es, log) && Lists(fs, log) && SaneLog(log)
    requires StockMeans(home, es, a) && StockMeans(home, fs, b)
    ensures a == b
  {
    hide NetSum, HeadingsOf, SaneLog;
    ListsCount(es, log);
    ListsCount(fs, log);
    SameHeadings(es, fs, log);
    forall k
      ensures OnHand(a, k) == OnHand(b, k)
    {
      SumsPermute(home, HeadingsOf(es), es, fs, k, "", Key("", ""));
    }
    PrunedIsUnique(a, b);
  }

  /** Pruning makes the table of balances a function of the balances. */
  lemma PrunedIsUnique(a: Stock, b: Stock)
    requires Pruned(a) && Pruned(b) && forall k :: OnHand(a, k) == OnHand(b, k)
    ensures a == b
  {
    forall k
      ensures k in a <==> k in b
      ensures k in a && k in b ==> a[k] == b[k]
    {
      assert OnHand(a, k) == OnHand(b, k);
    }
  }

  lemma SameTransfers(es: seq<Envelope>, fs: seq<Envelope>, log: set<Envelope>, a: map<string, Transfer>, b: map<string, Transfer>)
    requires Lists(es, log) && Lists(fs, log) && SaneLog(log) && TransfersMean(es, a) && TransfersMean(fs, b)
    ensures a == b
  {
    hide AllReceived, TransferIs, NetSum;
    SameHeadings(es, fs, log);
    forall t | t in a
      ensures t in b && a[t] == b[t]
    {
      HeadingFrom(es, t);
      var i :| 0 <= i < |es| && Dispatches(es[i].body, t) && HeadingsOf(es)[t] == es[i].body.destination;
      assert es[i] in log && es[i] in fs;
      var j :| 0 <= j < |fs| && fs[j] == es[i];
      SameReceived(es, fs, log, t);
      SameTransfer(a[t], b[t], es[i].body, AllReceived(es, t), AllReceived(fs, t));
    }
  }

  lemma ReceivedIsDispatched(es: seq<Envelope>, log: set<Envelope>, t: string)
    requires Lists(es, log) && NoneMissing(log) && AllReceived(es, t) != []
    ensures t in HeadingsOf(es)
  {
    hide NetSum, AllReceived, Mentions;
    var k := KeyOf(AllReceived(es, t)[0]);
    FirstMentioned(AllReceived(es, t));
    ReceivedFrom(es, t, k);
    var e :| e in es && Mentions(ReceiptLines(e.body, t), k);
    NothingMentioned(k);
    var d :| d in log && Dispatches(d.body, t);
    assert d in es;
    HeadingsAre(es, t);
  }

  lemma NothingWaits(home: NodeId, es: seq<Envelope>, log: set<Envelope>, s: State)
    requires Lists(es, log) && NoneMissing(log) && Means(home, es, s)
    ensures s.pending == map[]
  {
    hide NetSum, TransferIs, AllReceived, HeadingsOf, NoneMissing, Lists;
    forall t | t in s.pending
      ensures false
    {
      ReceivedIsDispatched(es, log, t);
    }
  }

  lemma FirstMentioned(ms: seq<Movement>)
    requires ms != []
    ensures Mentions(ms, KeyOf(ms[0]))
  {
  }

  lemma SamePending(home: NodeId, es: seq<Envelope>, fs: seq<Envelope>, log: set<Envelope>, a: State, b: State, t: string)
    requires Lists(es, log) && Lists(fs, log) && Means(home, es, a) && Means(home, fs, b) && a.transfers == b.transfers
    ensures multiset(PendingOf(a, t)) == multiset(PendingOf(b, t)) && (t in a.pending <==> t in b.pending)
  {
    hide NetSum, TransferIs, AllReceived, HeadingsOf, Lists;
    ListsCount(es, log);
    ListsCount(fs, log);
    SumsPermute("", map[], es, fs, StockKey("", "", ""), t, Key("", ""));
    assert |multiset(PendingOf(a, t))| == |multiset(PendingOf(b, t))|;
  }

  /** Order independence: every order of a log whose transfers each have at most one dispatch folds
      to the same stock, transfers and statuses, with the same receipts waiting; none waits when no
      dispatch is missing. So receipts that came before their dispatch are neither lost nor
      counted twice. */
  lemma FoldIsOrderIndependent(home: NodeId, es: seq<Envelope>, fs: seq<Envelope>, log: set<Envelope>)
    requires Lists(es, log) && Lists(fs, log) && SaneLog(log)
    ensures Fold(home, es).stock == Fold(home, fs).stock && Fold(home, es).transfers == Fold(home, fs).transfers
    ensures Fold(home, es).pending.Keys == Fold(home, fs).pending.Keys
    ensures forall t :: multiset(PendingOf(Fold(home, es), t)) == multiset(PendingOf(Fold(home, fs), t))
    ensures NoneMissing(log) ==> Fold(home, es) == Fold(home, fs) && Fold(home, es).pending == map[]
    ensures Means(home, es, Fold(home, es))
  {
    hide Lists, SaneLog, NoneMissing, StockMeans, TransfersMean, PendingMeans, Fold, Sane, PendingOf;
    ListsAreSane(es, log);
    ListsAreSane(fs, log);
    FoldMeans(home, es);
    FoldMeans(home, fs);
    var a, b := Fold(home, es), Fold(home, fs);
    SameStock(home, es, fs, log, a.stock, b.stock);
    SameTransfers(es, fs, log, a.transfers, b.transfers);
    forall t
      ensures multiset(PendingOf(a, t)) == multiset(PendingOf(b, t)) && (t in a.pending <==> t in b.pending)
    {
      SamePending(home, es, fs, log, a, b, t);
    }
    if NoneMissing(log) {
      NothingWaits(home, es, log, a);
      NothingWaits(home, fs, log, b);
    }
  }
}
