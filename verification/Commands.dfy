/** The commands of a warehouse node that start and end a transfer. They change nothing: they check
    the rules a node can check by itself and say which event to emit.
 */
module Commands {
  import opened Stamps
  import opened Warehouse
  import opened NodeState
  import StockTable

  datatype Rule = StockNonNegative | LotNotExpired | UomValid | SkuExists | LocationExists | LotRequired | AggregateState | QtyPositive

  datatype Ruling<T> = Allowed(value: T) | Violation(rule: Rule)

  datatype Item = Item(lotTracked: bool, baseUom: string, altUom: map<string, real>, deleted: bool)

  /** A quantity as the operator entered it. */
  datatype Line = Line(sku: string, lot: string, qty: real, uom: string)

  /** What a node checks commands against. Lots that are past their date are not usable. */
  datatype Site = Site(items: map<string, Item>, locations: set<string>, usable: string -> bool, state: State)

  function ToBase(item: Item, qty: real, uom: string): Ruling<real>
  {
    if qty <= 0.0 then Violation(QtyPositive)
    else if uom == item.baseUom then Allowed(qty)
    else if uom !in item.altUom || item.altUom[uom] <= 0.0 then Violation(UomValid)
    else Allowed(qty * item.altUom[uom])
  }

  /** The movement in base units, from and to places the command fills in. */
  function ResolveLine(site: Site, l: Line, src: string, dst: string): Ruling<Movement>
  {
    if l.sku !in site.items || site.items[l.sku].deleted then Violation(SkuExists)
    else if site.items[l.sku].lotTracked && l.lot == "" then Violation(LotRequired)
    else
      var base := ToBase(site.items[l.sku], l.qty, l.uom);
      if base.Violation? then Violation(base.rule) else Allowed(Movement(l.sku, l.lot, src, dst, base.value))
  }

  ghost predicate AllResolve(site: Site, lines: seq<Line>)
  {
    forall i :: 0 <= i < |lines| ==> ResolveLine(site, lines[i], "", "").Allowed?
  }

  ghost function Resolved(site: Site, lines: seq<Line>, src: string, dst: string): seq<Movement>
    requires AllResolve(site, lines)
  {
    if lines == [] then []
    else
      assert ResolveLine(site, lines[|lines| - 1], "", "").Allowed?;
      Resolved(site, lines[..|lines| - 1], src, dst) + [ResolveLine(site, lines[|lines| - 1], src, dst).value]
  }

  /** What movements take from a balance. */
  function Drawn(ms: seq<Movement>, k: StockKey): real
  {
    if ms == [] then 0.0 else Drawn(ms[..|ms| - 1], k) + if FromKey(ms[|ms| - 1]) == k then ms[|ms| - 1].qty else 0.0
  }

  /** Every balance drawn on covers all that is drawn on it. */
  ghost predicate Covered(stock: Stock, ms: seq<Movement>)
  {
    forall i :: 0 <= i < |ms| ==> Drawn(ms, FromKey(ms[i])) <= OnHand(stock, FromKey(ms[i]))
  }

  /** A line is taken exactly when its SKU is in the master and not deleted, a lot is named where lots
      are tracked, the quantity is positive, and the unit is the base or one with a positive factor. */
  lemma ResolvesIff(site: Site, l: Line, src: string, dst: string)
    ensures ResolveLine(site, l, src, dst).Allowed? <==>
              && l.sku in site.items && !site.items[l.sku].deleted
              && (site.items[l.sku].lotTracked ==> l.lot != "") && l.qty > 0.0
              && (l.uom == site.items[l.sku].baseUom || (l.uom in site.items[l.sku].altUom && site.items[l.sku].altUom[l.uom] > 0.0))
  {
  }

  lemma ResolvedMore(site: Site, lines: seq<Line>, n: nat, src: string, dst: string)
    requires n < |lines| && AllResolve(site, lines[..n]) && ResolveLine(site, lines[n], src, dst).Allowed?
    ensures AllResolve(site, lines[..n + 1])
    ensures Resolved(site, lines[..n + 1], src, dst) == Resolved(site, lines[..n], src, dst) + [ResolveLine(site, lines[n], src, dst).value]
  {
    assert lines[..n + 1][..n] == lines[..n];
  }

  lemma {:induction false} ResolvedAre(site: Site, lines: seq<Line>, src: string, dst: string)
    requires AllResolve(site, lines)
    ensures var ms := Resolved(site, lines, src, dst);
            && |ms| == |lines|
            && forall i :: 0 <= i < |ms| ==>
                 && ms[i].src == src && ms[i].dst == dst && ms[i].sku == lines[i].sku && ms[i].lot == lines[i].lot && ms[i].qty > 0.0
                 && lines[i].sku in site.items
                 && var item := site.items[lines[i].sku];
                 ms[i].qty == if lines[i].uom == item.baseUom then lines[i].qty
                              else if lines[i].uom in item.altUom then lines[i].qty * item.altUom[lines[i].uom] else 0.0
  {
    if lines != [] {
      var l := lines[|lines| - 1];
      assert ResolveLine(site, l, "", "").Allowed?;
      ResolvedAre(site, lines[..|lines| - 1], src, dst);
      if l.uom != site.items[l.sku].baseUom { TimesPositive(l.qty, site.items[l.sku].altUom[l.uom]); }
    }
  }

  lemma TimesPositive(a: real, b: real)
    requires a > 0.0 && b > 0.0
    ensures a * b > 0.0
  {
  }

  lemma DrawnMore(ms: seq<Movement>, m: Movement, k: StockKey)
    ensures Drawn(ms + [m], k) == Drawn(ms, k) + if FromKey(m) == k then m.qty else 0.0
  {
  }

  /** Checking each line against what the lines up to it draw is checking the whole. */
  lemma CoveredMore(stock: Stock, ms: seq<Movement>, m: Movement)
    requires m.qty > 0.0 && forall i :: 0 <= i < |ms| ==> ms[i].qty > 0.0
    ensures Covered(stock, ms + [m]) <==> Covered(stock, ms) && Drawn(ms + [m], FromKey(m)) <= OnHand(stock, FromKey(m))
  {
    hide Drawn;
    var all := ms + [m];
    forall i | 0 <= i < |ms|
      ensures Drawn(all, FromKey(all[i])) == Drawn(ms, FromKey(ms[i])) + if FromKey(m) == FromKey(ms[i]) then m.qty else 0.0
    {
      DrawnMore(ms, m, FromKey(ms[i]));
    }
    assert all[|ms|] == m;
    if Covered(stock, all) {
      forall i | 0 <= i < |ms|
        ensures Drawn(ms, FromKey(ms[i])) <= OnHand(stock, FromKey(ms[i]))
      {
        assert Drawn(all, FromKey(all[i])) <= OnHand(stock, FromKey(all[i]));
      }
      assert Drawn(all, FromKey(all[|ms|])) <= OnHand(stock, FromKey(all[|ms|]));
    }
  }

  lemma {:induction false} CoveredPrefix(stock: Stock, ms: seq<Movement>, n: nat)
    requires n <= |ms| && Covered(stock, ms) && forall i :: 0 <= i < |ms| ==> ms[i].qty > 0.0
    ensures Covered(stock, ms[..n])
    decreases |ms|
  {
    if n < |ms| {
      var init := ms[..|ms| - 1];
      assert ms == init + [ms[|ms| - 1]];
      CoveredMore(stock, init, ms[|ms| - 1]);
      CoveredPrefix(stock, init, n);
      assert init[..n] == ms[..n];
    } else {
      assert ms[..n] == ms;
    }
  }

  /** The rules of a dispatch. */
  ghost predicate MayDispatch(site: Site, transfer: string, source: NodeId, destination: NodeId, src: string, lines: seq<Line>)
  {
    && lines != [] && destination != source && transfer !in site.state.transfers && src in site.locations
    && AllResolve(site, lines) && (forall i :: 0 <= i < |lines| ==> site.usable(lines[i].lot))
    && Covered(site.state.stock, Resolved(site, lines, src, EXTERNAL))
  }

  lemma {:induction false} ResolvedPrefix(site: Site, lines: seq<Line>, n: nat, src: string, dst: string)
    requires n <= |lines| && AllResolve(site, lines)
    ensures AllResolve(site, lines[..n]) && Resolved(site, lines[..n], src, dst) <= Resolved(site, lines, src, dst)
  {
    if n < |lines| {
      ResolvedPrefix(site, lines[..|lines| - 1], n, src, dst);
      assert lines[..|lines| - 1][..n] == lines[..n];
    } else {
      assert lines[..n] == lines;
    }
  }

  /** A dispatch refused at some line is refused as a whole. */
  lemma RefusedLine(site: Site, transfer: string, source: NodeId, destination: NodeId, src: string, lines: seq<Line>, n: nat)
    requires n <= |lines| && MayDispatch(site, transfer, source, destination, src, lines)
    ensures AllResolve(site, lines[..n]) && Covered(site.state.stock, Resolved(site, lines[..n], src, EXTERNAL))
  {
    hide Covered, Resolved;
    var all := Resolved(site, lines, src, EXTERNAL);
    ResolvedAre(site, lines, src, EXTERNAL);
    ResolvedPrefix(site, lines, n, src, EXTERNAL);
    var some := Resolved(site, lines[..n], src, EXTERNAL);
    CoveredPrefix(site.state.stock, all, |some|);
    assert all[..|some|] == some;
  }

  /** A dispatch is allowed exactly when its rules hold: lines that draw on one balance are checked
      against it together. */
  method DoDispatchTransfer(site: Site, transfer: string, source: NodeId, destination: NodeId, src: string, lines: seq<Line>)
    returns (r: Ruling<Payload>)
    ensures r.Allowed? <==> MayDispatch(site, transfer, source, destination, src, lines)
    ensures r.Allowed? ==> r.value == TransferDispatched(transfer, source, destination, Resolved(site, lines, src, EXTERNAL))
    ensures lines == [] ==> r == Violation(QtyPositive)
    ensures lines != [] && (destination == source || transfer in site.state.transfers) ==> r == Violation(AggregateState)
    ensures r == Violation(StockNonNegative) ==>
              exists n :: 0 < n <= |lines| && AllResolve(site, lines[..n]) && !Covered(site.state.stock, Resolved(site, lines[..n], src, EXTERNAL))
  {
    hide Covered, Resolved, Drawn;
    if lines == [] {
      return Violation(QtyPositive);
    }
    if destination == source {
      return Violation(AggregateState);
    }
    if transfer in site.state.transfers {
      return Violation(AggregateState);
    }
    if src !in site.locations {
      return Violation(LocationExists);
    }
    var running: map<StockKey, real> := map[];
    var moves: seq<Movement> := [];
    NothingDrawn(site, lines, src);
    for n := 0 to |lines|
      invariant AllResolve(site, lines[..n]) && moves == Resolved(site, lines[..n], src, EXTERNAL)
      invariant forall i :: 0 <= i < n ==> site.usable(lines[i].lot)
      invariant forall k :: (if k in running then running[k] else 0.0) == Drawn(moves, k)
      invariant Covered(site.state.stock, moves)
    {
      var resolved := ResolveLine(site, lines[n], src, EXTERNAL);
      if resolved.Violation? {
        assert ResolveLine(site, lines[n], "", "").Violation?;
        NotOfStock(site, lines[n], src, EXTERNAL);
        return Violation(resolved.rule);
      }
      if !site.usable(lines[n].lot) {
        return Violation(LotNotExpired);
      }
      var move := resolved.value;
      var key := FromKey(move);
      ResolvedMore(site, lines, n, src, EXTERNAL);
      ResolvedAre(site, lines[..n + 1], src, EXTERNAL);
      assert moves + [move] == Resolved(site, lines[..n + 1], src, EXTERNAL);
      assert (moves + [move])[|moves|] == move && forall i :: 0 <= i < |moves| ==> (moves + [move])[i] == moves[i];
      CoveredMore(site.state.stock, moves, move);
      forall k
        ensures Drawn(moves + [move], k) == Drawn(moves, k) + if key == k then move.qty else 0.0
      {
        DrawnMore(moves, move, k);
      }
      running := running[key := (if key in running then running[key] else 0.0) + move.qty];
      if OnHand(site.state.stock, key) < running[key] {
        assert !Covered(site.state.stock, Resolved(site, lines[..n + 1], src, EXTERNAL));
        if MayDispatch(site, transfer, source, destination, src, lines) {
          RefusedLine(site, transfer, source, destination, src, lines, n + 1);
        }
        return Violation(StockNonNegative);
      }
      moves := moves + [move];
    }
    assert lines[..|lines|] == lines;
    return Allowed(TransferDispatched(transfer, source, destination, moves));
  }

  lemma NotOfStock(site: Site, l: Line, src: string, dst: string)
    ensures ResolveLine(site, l, src, dst).Violation? ==> ResolveLine(site, l, src, dst).rule != StockNonNegative
  {
  }

  lemma NothingDrawn(site: Site, lines: seq<Line>, src: string)
    ensures AllResolve(site, lines[..0]) && Resolved(site, lines[..0], src, EXTERNAL) == [] && Covered(site.state.stock, [])
    ensures forall k :: Drawn([], k) == 0.0
  {
  }

  /** The rules of a receipt: the transfer is known here and in flight. Where it is headed is not
      asked. */
  ghost predicate MayReceive(site: Site, transfer: string, dst: string, lines: seq<Line>)
  {
    && lines != [] && transfer in site.state.transfers && !site.state.transfers[transfer].complete
    && dst in site.locations && AllResolve(site, lines)
  }

  method DoReceiveTransfer(site: Site, transfer: string, dst: string, lines: seq<Line>) returns (r: Ruling<Payload>)
    ensures r.Allowed? <==> MayReceive(site, transfer, dst, lines)
    ensures r.Allowed? ==> r.value == TransferReceived(transfer, Resolved(site, lines, EXTERNAL, dst))
  {
    if lines == [] {
      return Violation(QtyPositive);
    }
    if transfer !in site.state.transfers || site.state.transfers[transfer].complete {
      return Violation(AggregateState);
    }
    if dst !in site.locations {
      return Violation(LocationExists);
    }
    var moves: seq<Movement> := [];
    for n := 0 to |lines|
      invariant AllResolve(site, lines[..n]) && moves == Resolved(site, lines[..n], EXTERNAL, dst)
    {
      var resolved := ResolveLine(site, lines[n], EXTERNAL, dst);
      if resolved.Violation? {
        assert ResolveLine(site, lines[n], "", "").Violation?;
        return Violation(resolved.rule);
      }
      ResolvedMore(site, lines, n, EXTERNAL, dst);
      moves := moves + [resolved.value];
    }
    assert lines[..|lines|] == lines;
    return Allowed(TransferReceived(transfer, moves));
  }

  // ---------------------------------------------------------------- what the commands promise

  /** Both commands issue events of the form the conservation of stock relies on. */
  lemma CommandsIssue(site: Site, transfer: string, home: NodeId, destination: NodeId, place: string, lines: seq<Line>)
    requires EXTERNAL !in site.locations
    ensures MayDispatch(site, transfer, home, destination, place, lines) ==>
              IssuedAt(home, TransferDispatched(transfer, home, destination, Resolved(site, lines, place, EXTERNAL)))
    ensures MayReceive(site, transfer, place, lines) ==>
              IssuedAt(home, TransferReceived(transfer, Resolved(site, lines, EXTERNAL, place)))
  {
    hide Covered, Resolved;
    if AllResolve(site, lines) {
      ResolvedAre(site, lines, place, EXTERNAL);
      ResolvedAre(site, lines, EXTERNAL, place);
    }
  }

  /** Over the log of the node: a receipt is allowed while the dispatch is held and some key of it is
      short, and not once every key is covered. */
  lemma ReceivableIff(site: Site, home: NodeId, es: seq<Envelope>, transfer: string, dst: string, lines: seq<Line>)
    requires Sane(es) && site.state == Fold(home, es)
    ensures MayReceive(site, transfer, dst, lines) <==>
              && lines != [] && dst in site.locations && AllResolve(site, lines)
              && exists i, k :: 0 <= i < |es| && Dispatches(es[i].body, transfer) && Mentions(es[i].body.lines, k)
                                && QtyOf(AllReceived(es, transfer), k) < QtyOf(es[i].body.lines, k)
  {
    hide Fold, AllReceived, QtyOf, Mentions, AllResolve, StockMeans, PendingMeans;
    FoldMeans(home, es);
    HeadingsAre(es, transfer);
    if transfer in site.state.transfers {
      var i :| 0 <= i < |es| && Dispatches(es[i].body, transfer);
      TransferCompleteIff(home, es, i);
    }
  }

  lemma {:induction false} OutgoingDraws(ms: seq<Movement>, k: StockKey)
    requires k.location != EXTERNAL && forall i :: 0 <= i < |ms| ==> ms[i].dst == EXTERNAL
    ensures Net(ms, k) == -Drawn(ms, k)
  {
    if ms != [] { OutgoingDraws(ms[..|ms| - 1], k); }
  }

  lemma {:induction false} DrawnOnlyFrom(ms: seq<Movement>, k: StockKey)
    ensures Drawn(ms, k) == 0.0 || exists i :: 0 <= i < |ms| && FromKey(ms[i]) == k
  {
    if ms != [] {
      var init := ms[..|ms| - 1];
      DrawnOnlyFrom(init, k);
      if i :| 0 <= i < |init| && FromKey(init[i]) == k {
        assert FromKey(ms[i]) == k;
      }
    }
  }

  /** Applying an allowed dispatch at the source never takes a balance in the warehouse below zero. */
  lemma DispatchKeepsStock(site: Site, transfer: string, source: NodeId, destination: NodeId, src: string, lines: seq<Line>, k: StockKey)
    requires MayDispatch(site, transfer, source, destination, src, lines) && k.location != EXTERNAL && OnHand(site.state.stock, k) >= 0.0
    ensures OnHand(MoveAll(site.state.stock, Resolved(site, lines, src, EXTERNAL)), k) >= 0.0
  {
    hide Resolved, Drawn, MoveAll, Net;
    var ms := Resolved(site, lines, src, EXTERNAL);
    ResolvedAre(site, lines, src, EXTERNAL);
    OnHandMoveAll(site.state.stock, ms, k);
    OutgoingDraws(ms, k);
    DrawnOnlyFrom(ms, k);
  }

  const GOODS := map["sku" := Item(false, "pc", map[], false)]

  lemma SourceKnows()
    ensures "T" in Fold("north", [StockTable.SENT]).transfers && !Fold("north", [StockTable.SENT]).transfers["T"].complete
  {
    assert [StockTable.SENT][..0] == [] && [StockTable.LINE][..0] == [];
  }

  /** The source of a transfer may record its arrival at itself: the command that emits the receipt
      through which stock is lost is allowed. */
  lemma SourceMayReceiveItsOwn() returns (site: Site, lines: seq<Line>)
    ensures site.state == Fold("north", [StockTable.SENT]) && EXTERNAL !in site.locations
    ensures MayReceive(site, "T", "B1", lines) && Resolved(site, lines, EXTERNAL, "B1") == [StockTable.LANDING]
  {
    SourceKnows();
    site, lines := Site(GOODS, {"B1"}, lot => true, Fold("north", [StockTable.SENT])), [Line("sku", "", 1.0, "pc")];
    assert lines[..0] == [];
    assert Resolved(site, lines[..0], EXTERNAL, "B1") == [];
  }
}
