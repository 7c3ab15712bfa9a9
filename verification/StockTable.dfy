/** The stock_on_hand table, built event by event in the order events arrive, against the balances
    a full replay of the log computes.
 */
module StockTable {
  import opened Stamps
  import opened Events
  import opened Warehouse
  import opened NodeState

  datatype Status = InFlight | Complete | Failed

  datatype TransferRow = TransferRow(source: NodeId, destination: NodeId, dispatched: real, received: real, status: Status)

  /** The stock and transfers tables, and the events already folded in. */
  datatype Table = Table(stock: Stock, rows: map<string, TransferRow>, applied: set<EventId>)

  const EMPTY_TABLE := Table(map[], map[], {})

  /** The destination of a transfer as far as the table knows; empty when it does not. */
  function ToNode(rows: map<string, TransferRow>, transfer: string): NodeId
  {
    if transfer in rows then rows[transfer].destination else ""
  }

  /** Which movements of an event the stock table takes. A receipt of a transfer it knows no
      destination for is taken. */
  function TableMoves(home: NodeId, rows: map<string, TransferRow>, body: Payload): seq<Movement>
  {
    match body
    case GoodsReceived(_, _, _, move) => [move]
    case PutAway(move) => [move]
    case Picked(move) => [move]
    case StockAdjusted(move, _) => [move]
    case TransferDispatched(_, source, _, lines) => if home != "" && home != source then [] else lines
    case TransferReceived(transfer, lines) =>
      var to := ToNode(rows, transfer);
      if home != "" && to != "" && home != to then [] else lines
    case _ => []
  }

  function ApplyTransfer(rows: map<string, TransferRow>, env: Envelope): map<string, TransferRow>
  {
    match env.body
    case TransferDispatched(transfer, source, destination, lines) =>
      if transfer !in rows then rows[transfer := TransferRow(source, destination, Total(lines), 0.0, InFlight)]
      else
        var r := rows[transfer];
        rows[transfer := TransferRow(source, destination, Total(lines), r.received,
                                     if r.received >= Total(lines) then Complete else r.status)]
    case TransferReceived(transfer, lines) =>
      if transfer !in rows then rows[transfer := TransferRow("", "", 0.0, Total(lines), InFlight)]
      else
        var r := rows[transfer];
        rows[transfer := r.(received := r.received + Total(lines),
                            status := if r.received + Total(lines) >= r.dispatched && r.dispatched > 0.0 then Complete else r.status)]
    case StockAdjusted(_, reason) =>
      if reason == TransferRejected && env.aggregate in rows
      then rows[env.aggregate := rows[env.aggregate].(status := Failed)] else rows
    case _ => rows
  }

  /** Idempotent per event: an event folded in before changes nothing. */
  function Projected(home: NodeId, t: Table, env: Envelope): Table
  {
    if env.id in t.applied then t
    else Table(MoveAll(t.stock, TableMoves(home, t.rows, env.body)), ApplyTransfer(t.rows, env), t.applied + {env.id})
  }

  function ProjectAll(home: NodeId, es: seq<Envelope>): Table
  {
    if es == [] then EMPTY_TABLE else Projected(home, ProjectAll(home, es[..|es| - 1]), es[|es| - 1])
  }

  /** A projection that is not told where it runs takes every movement. */
  lemma NamelessTakesAll(rows: map<string, TransferRow>, body: Payload)
    ensures body.TransferDispatched? || body.TransferReceived? ==> TableMoves("", rows, body) == body.lines
  {
  }

  // ---------------------------------------------------------------- what the table holds

  ghost predicate DistinctIds(es: seq<Envelope>)
  {
    forall i, j :: 0 <= i < j < |es| ==> es[i].id != es[j].id
  }

  lemma {:induction false} AppliedAre(home: NodeId, es: seq<Envelope>, id: EventId)
    ensures id in ProjectAll(home, es).applied <==> exists e :: e in es && e.id == id
  {
    if es != [] {
      var init, last := es[..|es| - 1], es[|es| - 1];
      AppliedAre(home, init, id);
      assert forall e :: e in es <==> e in init || e == last;
    }
  }

  /** The table knows a transfer's destination exactly when it has seen its dispatch. */
  lemma {:induction false} RowsKnowHeadings(home: NodeId, es: seq<Envelope>, t: string)
    requires DistinctIds(es)
    ensures ToNode(ProjectAll(home, es).rows, t) == if t in HeadingsOf(es) then HeadingsOf(es)[t] else ""
  {
    if es != [] {
      var init, last := es[..|es| - 1], es[|es| - 1];
      RowsKnowHeadings(home, init, t);
      AppliedAre(home, init, last.id);
      hide Total, MoveAll, TableMoves;
    }
  }

  /** A receipt is misplaced when it comes before the table knows where its transfer is headed, and
      that never turns out to be here. */
  ghost predicate Misplaced(home: NodeId, before: Headings, to: Headings, body: Payload)
  {
    && body.TransferReceived?
    && (body.transfer !in before || before[body.transfer] == "")
    && !(body.transfer in to && to[body.transfer] == home)
  }

  /** What misplaced receipts put into the table that a replay would not. */
  ghost function Stray(home: NodeId, to: Headings, es: seq<Envelope>, k: StockKey): real
  {
    if es == [] then 0.0
    else
      var init, body := es[..|es| - 1], es[|es| - 1].body;
      Stray(home, to, init, k) + if Misplaced(home, HeadingsOf(init), to, body) then Net(body.lines, k) else 0.0
  }

  /** to extends what the log says so far. */
  ghost predicate Foresees(to: Headings, es: seq<Envelope>)
  {
    forall t :: t in HeadingsOf(es) ==> t in to && to[t] == HeadingsOf(es)[t]
  }

  lemma TableMovesNet(home: NodeId, rows: map<string, TransferRow>, before: Headings, to: Headings, body: Payload, k: StockKey)
    requires home != "" && forall t :: t in before ==> t in to && to[t] == before[t]
    requires body.TransferReceived? ==> ToNode(rows, body.transfer) == if body.transfer in before then before[body.transfer] else ""
    ensures Net(TableMoves(home, rows, body), k)
         == Net(MovesAt(home, to, body), k) + if Misplaced(home, before, to, body) then Net(body.lines, k) else 0.0
  {
  }

  /** The table is the replay's sums plus what was misplaced. */
  lemma {:induction false} TableIsSumsPlusStray(home: NodeId, to: Headings, es: seq<Envelope>, k: StockKey)
    requires home != "" && DistinctIds(es) && Sane(es) && Foresees(to, es)
    ensures OnHand(ProjectAll(home, es).stock, k) == NetSum(home, to, es, k) + Stray(home, to, es, k)
  {
    hide Net, MovesAt, TableMoves, MoveAll, ApplyTransfer, Misplaced;
    if es != [] {
      var init, last := es[..|es| - 1], es[|es| - 1];
      assert es == init + [last];
      SaneInit(init, last);
      HeadingsGrow(init, last, to);
      TableIsSumsPlusStray(home, to, init, k);
      AppliedAre(home, init, last.id);
      var t := ProjectAll(home, init);
      OnHandMoveAll(t.stock, TableMoves(home, t.rows, last.body), k);
      if last.body.TransferReceived? { RowsKnowHeadings(home, init, last.body.transfer); }
      TableMovesNet(home, t.rows, HeadingsOf(init), to, last.body, k);
    }
  }

  lemma HeadingsGrow(es: seq<Envelope>, e: Envelope, to: Headings)
    requires Sane(es + [e]) && Foresees(to, es + [e])
    ensures Foresees(to, es)
  {
    hide Sane;
    Snoc(es, e);
    SaneInit(es, e);
  }

  lemma {:induction false} TablePruned(home: NodeId, es: seq<Envelope>)
    ensures Pruned(ProjectAll(home, es).stock)
  {
    hide Pruned, MoveAll, TableMoves, ApplyTransfer;
    if es != [] {
      TablePruned(home, es[..|es| - 1]);
      var t := ProjectAll(home, es[..|es| - 1]);
      MoveAllPrunes(t.stock, TableMoves(home, t.rows, es[|es| - 1].body));
    } else {
      NothingPruned();
    }
  }

  lemma NothingPruned()
    ensures Pruned(map[])
  {
  }

  // ---------------------------------------------------------------- what the transfers table holds

  lemma {:induction false} TotalConcat(a: seq<Movement>, b: seq<Movement>)
    ensures Total(a + b) == Total(a) + Total(b)
    decreases |b|
  {
    if b == [] {
      assert a + b == a;
    } else {
      assert (a + b)[..|a + b| - 1] == a + b[..|b| - 1];
      TotalConcat(a, b[..|b| - 1]);
    }
  }

  /** With TotalConcat: a total is the sum of the quantities. */
  lemma TotalOne(m: Movement)
    ensures Total([]) == 0.0 && Total([m]) == m.qty
  {
    assert [m][..0] == [];
  }

  lemma {:induction false} TotalPositive(ms: seq<Movement>)
    requires Positive(ms)
    ensures Total(ms) >= 0.0 && (ms != [] ==> Total(ms) > 0.0)
  {
    if ms != [] { TotalPositive(ms[..|ms| - 1]); }
  }

  /** How much was dispatched under a transfer, in all. */
  function SentTotal(es: seq<Envelope>, t: string): real
  {
    if es == [] then 0.0
    else SentTotal(es[..|es| - 1], t) + if Dispatches(es[|es| - 1].body, t) then Total(es[|es| - 1].body.lines) else 0.0
  }

  /** Central has not rejected the transfer, as far as the log says. */
  ghost predicate NotRejected(es: seq<Envelope>, t: string)
  {
    forall i :: 0 <= i < |es| && es[i].body.StockAdjusted? && es[i].body.reason == TransferRejected ==> es[i].aggregate != t
  }

  /** The row a log calls for: the totals of both halves, complete exactly when a dispatched transfer
      has been received in full, whichever half came first. */
  ghost predicate RowMeans(es: seq<Envelope>, rows: map<string, TransferRow>, t: string)
  {
    && (t in rows <==> t in HeadingsOf(es) || AllReceived(es, t) != [])
    && (t in rows ==>
          var r := rows[t];
          && r.dispatched == SentTotal(es, t) && r.received == Total(AllReceived(es, t))
          && (r.dispatched > 0.0 <==> t in HeadingsOf(es)) && r.dispatched >= 0.0
          && r.status == if r.dispatched > 0.0 && r.received >= r.dispatched then Complete else InFlight)
    && (t !in rows ==> SentTotal(es, t) == 0.0)
  }

  lemma SentMore(es: seq<Envelope>, e: Envelope, t: string)
    ensures SentTotal(es + [e], t) == SentTotal(es, t) + if Dispatches(e.body, t) then Total(e.body.lines) else 0.0
  {
  }

  lemma RowStep(es: seq<Envelope>, e: Envelope, rows: map<string, TransferRow>, t: string)
    requires Sane(es + [e]) && RowMeans(es, rows, t) && NotRejected(es + [e], t)
    ensures RowMeans(es + [e], ApplyTransfer(rows, e), t)
  {
    hide Net, NetSum, Positive, AllReceived, HeadingsOf, Sane, SentTotal, Total;
    Snoc(es, e);
    SaneInit(es, e);
    SentMore(es, e, t);
    assert (es + [e])[|es|] == e;
    TotalConcat(AllReceived(es, t), ReceiptLines(e.body, t));
    if e.body.TransferDispatched? || e.body.TransferReceived? { TotalPositive(e.body.lines); }
    assert AllReceived(es, t) + [] == AllReceived(es, t);
    NothingTotal();
  }

  lemma NothingTotal()
    ensures Total([]) == 0.0
  {
  }

  /** The transfers table, built in any arrival order, carries the totals of both halves and marks a
      transfer complete exactly when what was received covers what was dispatched. */
  lemma {:induction false} TransferRowsMean(home: NodeId, es: seq<Envelope>, t: string)
    requires Sane(es) && DistinctIds(es) && NotRejected(es, t)
    ensures RowMeans(es, ProjectAll(home, es).rows, t)
  {
    hide Sane, ApplyTransfer, RowMeans, MoveAll, TableMoves;
    if es == [] {
      NoRow(t);
    } else {
      var init, last := es[..|es| - 1], es[|es| - 1];
      assert es == init + [last];
      assert forall i :: 0 <= i < |init| ==> init[i] == es[i];
      SaneInit(init, last);
      TransferRowsMean(home, init, t);
      AppliedAre(home, init, last.id);
      RowStep(init, last, ProjectAll(home, init).rows, t);
    }
  }

  /** Central's rejection of a transfer fails its row and leaves its totals alone. */
  lemma RejectionFails(home: NodeId, es: seq<Envelope>, e: Envelope)
    requires e.body.StockAdjusted? && e.body.reason == TransferRejected && e.aggregate in ProjectAll(home, es).rows
    requires forall d :: d in es ==> d.id != e.id
    ensures var was, now := ProjectAll(home, es).rows, ProjectAll(home, es + [e]).rows;
            && e.aggregate in now && now[e.aggregate] == was[e.aggregate].(status := Failed)
            && forall t :: t != e.aggregate ==> (t in now <==> t in was) && (t in was ==> now[t] == was[t])
  {
    AppliedAre(home, es, e.id);
    assert (es + [e])[..|es|] == es;
  }

  lemma NoRow(t: string)
    ensures RowMeans([], map[], t)
  {
  }

  // ---------------------------------------------------------------- misplaced receipts show

  lemma {:induction false} InboundDrains(ms: seq<Movement>, k: StockKey)
    requires Inbound(ms) && k.location == EXTERNAL
    ensures Net(ms, k) <= 0.0 && ((exists i :: 0 <= i < |ms| && FromKey(ms[i]) == k) ==> Net(ms, k) < 0.0)
  {
    if ms != [] {
      var init := ms[..|ms| - 1];
      InboundDrains(init, k);
      if i :| 0 <= i < |ms| && FromKey(ms[i]) == k {
        assert i < |init| ==> FromKey(init[i]) == k;
      }
    }
  }

  ghost predicate MisplacedAt(home: NodeId, to: Headings, es: seq<Envelope>, i: nat)
    requires i < |es|
  {
    Misplaced(home, HeadingsOf(es[..i]), to, es[i].body)
  }

  /** No receipt reaches the table ahead of a dispatch that is missing or headed elsewhere. */
  ghost predicate NoneMisplaced(home: NodeId, to: Headings, es: seq<Envelope>)
  {
    forall i :: 0 <= i < |es| ==> !MisplacedAt(home, to, es, i)
  }

  ghost predicate AllInbound(es: seq<Envelope>)
  {
    forall i :: 0 <= i < |es| && es[i].body.TransferReceived? ==> Inbound(es[i].body.lines) && es[i].body.lines != []
  }

  /** Misplaced receipts all draw on the outside balance, so they cannot cancel out. */
  lemma {:induction false} StraySign(home: NodeId, to: Headings, es: seq<Envelope>, k: StockKey)
    requires AllInbound(es) && k.location == EXTERNAL
    ensures Stray(home, to, es, k) <= 0.0
    ensures (exists i :: 0 <= i < |es| && MisplacedAt(home, to, es, i) && FromKey(es[i].body.lines[0]) == k) ==> Stray(home, to, es, k) < 0.0
  {
    hide Inbound, Net;
    if es != [] {
      var n := |es| - 1;
      var init := es[..n];
      StraySign(home, to, init, k);
      if es[n].body.TransferReceived? { InboundDrains(es[n].body.lines, k); }
      assert forall i :: 0 <= i < n ==> init[i] == es[i] && init[..i] == es[..i];
      if i :| 0 <= i < n && MisplacedAt(home, to, es, i) && FromKey(es[i].body.lines[0]) == k {
        assert MisplacedAt(home, to, init, i);
      }
    }
  }

  lemma {:induction false} NoStray(home: NodeId, to: Headings, es: seq<Envelope>, k: StockKey)
    requires NoneMisplaced(home, to, es)
    ensures Stray(home, to, es, k) == 0.0
  {
    if es != [] {
      var init := es[..|es| - 1];
      forall i | 0 <= i < |init|
        ensures !MisplacedAt(home, to, init, i)
      {
        assert init[i] == es[i] && init[..i] == es[..i];
        assert !MisplacedAt(home, to, es, i);
      }
      assert NoneMisplaced(home, to, init);
      NoStray(home, to, init, k);
      assert !MisplacedAt(home, to, es, |es| - 1);
    }
  }

  /** The table built in arrival order equals the stock of a full replay in any order, event for
      event folded once, if and only if no receipt reached it ahead of a dispatch that is still
      missing or was headed elsewhere. */
  lemma TableMatchesReplayIff(home: NodeId, es: seq<Envelope>, fs: seq<Envelope>, log: set<Envelope>)
    requires home != "" && Lists(es, log) && Lists(fs, log) && SaneLog(log) && DistinctIds(es) && AllInbound(es)
    ensures ProjectAll(home, es).stock == Fold(home, fs).stock <==> NoneMisplaced(home, HeadingsOf(es), es)
  {
    hide ProjectAll, Fold, NetSum, Stray, HeadingsOf, Lists, SaneLog, Sane, MisplacedAt, AllInbound, TransfersMean, PendingMeans;
    var to, table, replay := HeadingsOf(es), ProjectAll(home, es).stock, Fold(home, fs).stock;
    ListsAreSane(es, log);
    FoldIsOrderIndependent(home, es, fs, log);
    TablePruned(home, es);
    forall k
      ensures OnHand(table, k) == OnHand(replay, k) + Stray(home, to, es, k)
    {
      TableIsSumsPlusStray(home, to, es, k);
    }
    if NoneMisplaced(home, to, es) {
      forall k
        ensures OnHand(table, k) == OnHand(replay, k)
      {
        NoStray(home, to, es, k);
      }
      PrunedIsUnique(table, replay);
    } else {
      var i :| 0 <= i < |es| && MisplacedAt(home, to, es, i);
      var k := StrayKey(home, to, es, i);
      StraySign(home, to, es, k);
      assert OnHand(table, k) != OnHand(replay, k);
      assert table != replay;
    }
  }

  lemma StrayKey(home: NodeId, to: Headings, es: seq<Envelope>, i: nat) returns (k: StockKey)
    requires i < |es| && MisplacedAt(home, to, es, i) && AllInbound(es)
    ensures k.location == EXTERNAL && es[i].body.TransferReceived? && es[i].body.lines != [] && FromKey(es[i].body.lines[0]) == k
  {
    k := FromKey(es[i].body.lines[0]);
  }

  /** A table that sees every dispatch before its receipts misplaces none. */
  lemma DispatchFirstMatches(home: NodeId, es: seq<Envelope>, fs: seq<Envelope>, log: set<Envelope>)
    requires home != "" && Lists(es, log) && Lists(fs, log) && SaneLog(log) && DistinctIds(es) && AllInbound(es)
    requires forall i :: 0 <= i < |es| && es[i].body.TransferReceived? ==>
               es[i].body.transfer in HeadingsOf(es[..i]) && HeadingsOf(es[..i])[es[i].body.transfer] != ""
    ensures ProjectAll(home, es).stock == Fold(home, fs).stock
  {
    hide ProjectAll, Fold, Lists, SaneLog, DistinctIds, AllInbound;
    TableMatchesReplayIff(home, es, fs, log);
  }

  const LINE := Movement("sku", "", "A1", EXTERNAL, 1.0)
  const LANDING := Movement("sku", "", EXTERNAL, "B1", 1.0)
  const SENT := Envelope(EventId("north", 1), "T", Hlc(1, 0, "north"), None, TransferDispatched("T", "north", "south", [LINE]))
  const LANDED := Envelope(EventId("south", 1), "T", Hlc(2, 0, "south"), None, TransferReceived("T", [LANDING]))

  lemma EarlyIsMisplaced()
    ensures MisplacedAt("north", HeadingsOf([LANDED, SENT]), [LANDED, SENT], 0)
    ensures MisplacedAt("south", HeadingsOf([LANDED]), [LANDED], 0)
  {
  }

  /** A receipt relayed to the source ahead of the dispatch: the table takes it, a replay does not. */
  lemma EarlyForeignReceiptDiverges()
    ensures ProjectAll("north", [LANDED, SENT]).stock != Fold("north", [SENT, LANDED]).stock
  {
    hide ProjectAll, Fold, MisplacedAt, HeadingsOf;
    EarlyIsMisplaced();
    assert Dispatches(SENT.body, "T");
    TableMatchesReplayIff("north", [LANDED, SENT], [SENT, LANDED], {SENT, LANDED});
  }

  /** A receipt at the destination itself, which was never told of the dispatch: the table counts
      the goods, the state keeps them waiting. */
  lemma UndispatchedReceiptDiverges()
    ensures ProjectAll("south", [LANDED]).stock != Fold("south", [LANDED]).stock
  {
    hide ProjectAll, Fold, MisplacedAt, HeadingsOf;
    EarlyIsMisplaced();
    TableMatchesReplayIff("south", [LANDED], [LANDED], {LANDED});
  }
}
