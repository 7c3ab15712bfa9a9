/** What is on the shelves of a node, read off the stock its log folds to. A reading is a sum over
    the events of the log, so what some of the events contribute can be told from the rest.
 */
module Shelves {
  import opened Stamps
  import opened Warehouse
  import opened NodeState
  import opened Sums

  /** What is read: one balance, all shelves of a SKU and lot, or all shelves of a SKU. */
  datatype Gauge = Balance(at: StockKey) | Shelves(of: Key) | Item(sku: string)

  predicate Counted(g: Gauge, k: StockKey)
  {
    match g
    case Balance(at) => k == at
    case Shelves(of) => k.sku == of.sku && k.lot == of.lot && k.location != EXTERNAL
    case Item(sku) => k.sku == sku && k.location != EXTERNAL
  }

  ghost function Reading(s: Stock, g: Gauge): real
  {
    Sum(map k | k in s && Counted(g, k) :: s[k])
  }

  function EffectOf(m: Movement, g: Gauge): real
  {
    (if Counted(g, ToKey(m)) then m.qty else 0.0) - (if Counted(g, FromKey(m)) then m.qty else 0.0)
  }

  /** What movements do to a reading. */
  function Effect(ms: seq<Movement>, g: Gauge): real
  {
    if ms == [] then 0.0 else Effect(ms[..|ms| - 1], g) + EffectOf(ms[|ms| - 1], g)
  }

  lemma ReadingOne(s: Stock, k: StockKey)
    ensures Reading(s, Balance(k)) == OnHand(s, k)
  {
    var m := map x | x in s && Counted(Balance(k), x) :: s[x];
    if k in s { SumOne(m, k); } else { SumZero(m); }
  }

  lemma ReadingAdd(s: Stock, k: StockKey, delta: real, g: Gauge)
    ensures Reading(Add(s, k, delta), g) == Reading(s, g) + if Counted(g, k) then delta else 0.0
  {
    hide Sum;
    var s' := Add(s, k, delta);
    var before, after := map x | x in s && Counted(g, x) :: s[x], map x | x in s' && Counted(g, x) :: s'[x];
    if Counted(g, k) {
      SumWithout(before, k);
      SumWithout(after, k);
      assert before - {k} == after - {k};
    } else {
      assert before == after;
    }
  }

  lemma {:induction false} ReadingMoveAll(s: Stock, ms: seq<Movement>, g: Gauge)
    ensures Reading(MoveAll(s, ms), g) == Reading(s, g) + Effect(ms, g)
  {
    hide Reading, Add;
    if ms != [] {
      var s', m := MoveAll(s, ms[..|ms| - 1]), ms[|ms| - 1];
      ReadingMoveAll(s, ms[..|ms| - 1], g);
      ReadingAdd(s', FromKey(m), -m.qty, g);
      ReadingAdd(Add(s', FromKey(m), -m.qty), ToKey(m), m.qty, g);
    }
  }

  lemma {:induction false} EffectConcat(a: seq<Movement>, b: seq<Movement>, g: Gauge)
    ensures Effect(a + b, g) == Effect(a, g) + Effect(b, g)
    decreases |b|
  {
    hide EffectOf;
    if b == [] {
      assert a + b == a;
    } else {
      assert (a + b)[..|a + b| - 1] == a + b[..|b| - 1];
      EffectConcat(a, b[..|b| - 1], g);
    }
  }

  // ---------------------------------------------------------------- a reading is a sum over the log

  /** The log holds a dispatch of the transfer that is headed here. */
  ghost predicate HeadedTo(log: set<Envelope>, transfer: string, home: NodeId)
  {
    exists d :: d in log && Dispatches(d.body, transfer) && d.body.destination == home
  }

  /** The movements an event makes at home when the log there is this one. */
  ghost function MovesIn(home: NodeId, log: set<Envelope>, body: Payload): seq<Movement>
  {
    if body.TransferReceived? then if HeadedTo(log, body.transfer, home) then body.lines else []
    else MovesAt(home, map[], body)
  }

  lemma HeadingsKnown(es: seq<Envelope>, log: set<Envelope>, t: string, home: NodeId)
    requires Lists(es, log) && SaneLog(log)
    ensures t in HeadingsOf(es) && HeadingsOf(es)[t] == home <==> HeadedTo(log, t, home)
  {
    hide HeadingsOf;
    HeadingsAre(es, t);
    assert forall d :: d in log ==> d in es;
    if t in HeadingsOf(es) {
      HeadingFrom(es, t);
      var i :| 0 <= i < |es| && Dispatches(es[i].body, t) && HeadingsOf(es)[t] == es[i].body.destination;
      assert es[i] in log;
    }
  }

  lemma MovesKnown(home: NodeId, es: seq<Envelope>, log: set<Envelope>, body: Payload)
    requires Lists(es, log) && SaneLog(log)
    ensures MovesAt(home, HeadingsOf(es), body) == MovesIn(home, log, body)
  {
    hide HeadingsOf, Lists, SaneLog, HeadedTo;
    if body.TransferReceived? { HeadingsKnown(es, log, body.transfer, home); }
  }

  /** All movements of a log, in its order. */
  ghost function AllMoves(home: NodeId, log: set<Envelope>, es: seq<Envelope>): seq<Movement>
  {
    if es == [] then [] else AllMoves(home, log, es[..|es| - 1]) + MovesIn(home, log, es[|es| - 1].body)
  }

  lemma {:induction false} MovesNet(home: NodeId, log: set<Envelope>, all: seq<Envelope>, es: seq<Envelope>, k: StockKey)
    requires Lists(all, log) && SaneLog(log)
    ensures Net(AllMoves(home, log, es), k) == NetSum(home, HeadingsOf(all), es, k)
  {
    hide Net, MovesAt, MovesIn, HeadingsOf, Lists, SaneLog;
    NoMoves(k);
    if es != [] {
      MovesNet(home, log, all, es[..|es| - 1], k);
      NetConcat(AllMoves(home, log, es[..|es| - 1]), MovesIn(home, log, es[|es| - 1].body), k);
      MovesKnown(home, all, log, es[|es| - 1].body);
    }
  }

  lemma StockIsMoved(home: NodeId, es: seq<Envelope>, log: set<Envelope>)
    requires Lists(es, log) && SaneLog(log)
    ensures Fold(home, es).stock == MoveAll(map[], AllMoves(home, log, es))
  {
    hide Fold, MoveAll, AllMoves, NetSum, HeadingsOf, Lists, SaneLog, TransfersMean, PendingMeans, Sane;
    ListsAreSane(es, log);
    FoldMeans(home, es);
    var stock, moved := Fold(home, es).stock, MoveAll(map[], AllMoves(home, log, es));
    MoveAllPrunes(map[], AllMoves(home, log, es));
    forall k
      ensures OnHand(stock, k) == OnHand(moved, k)
    {
      OnHandMoveAll(map[], AllMoves(home, log, es), k);
      MovesNet(home, log, es, es, k);
    }
    PrunedIsUnique(stock, moved);
  }

  /** What each event of part does to a reading at home. */
  ghost function Effects(home: NodeId, log: set<Envelope>, part: set<Envelope>, g: Gauge): map<Envelope, real>
  {
    map e | e in part :: Effect(MovesIn(home, log, e.body), g)
  }

  lemma {:induction false} MovesSum(home: NodeId, log: set<Envelope>, es: seq<Envelope>, part: set<Envelope>, g: Gauge)
    requires Lists(es, part)
    ensures Effect(AllMoves(home, log, es), g) == Sum(Effects(home, log, part, g))
    decreases |es|
  {
    hide Effect, MovesIn;
    if es == [] {
      NoEffect(g);
      SumZero(Effects(home, log, part, g));
    } else {
      var init, e := es[..|es| - 1], es[|es| - 1];
      assert es == init + [e] && e !in init;
      MovesSum(home, log, init, part - {e}, g);
      EffectConcat(AllMoves(home, log, init), MovesIn(home, log, e.body), g);
      SumAt(Effects(home, log, part, g), e);
      assert Effects(home, log, part, g) - {e} == Effects(home, log, part - {e}, g);
    }
  }

  lemma NoEffect(g: Gauge)
    ensures Effect([], g) == 0.0 && Reading(map[], g) == 0.0
  {
    var none: Stock := map[];
    SumZero(map k | k in none && Counted(g, k) :: none[k]);
  }

  /** Whatever order the log is folded in, a reading is the sum of what its events do here. */
  lemma ReadingIsSum(home: NodeId, es: seq<Envelope>, log: set<Envelope>, g: Gauge)
    requires Lists(es, log) && SaneLog(log)
    ensures Reading(Fold(home, es).stock, g) == Sum(Effects(home, log, log, g))
  {
    hide Fold, MoveAll, AllMoves, Effects, Reading, Lists, SaneLog;
    StockIsMoved(home, es, log);
    ReadingMoveAll(map[], AllMoves(home, log, es), g);
    NoEffect(g);
    MovesSum(home, log, es, log, g);
  }

  /** The rest of the log moves the same with part gone. */
  ghost predicate Separable(home: NodeId, log: set<Envelope>, part: set<Envelope>)
  {
    forall e :: e in log - part ==> MovesIn(home, log - part, e.body) == MovesIn(home, log, e.body)
  }

  lemma SubsetIsSane(log: set<Envelope>, part: set<Envelope>)
    requires SaneLog(log)
    ensures SaneLog(log - part)
  {
  }

  /** What part of a log contributes to a reading: fold the log with it and without it. */
  lemma PartContributes(home: NodeId, es: seq<Envelope>, fs: seq<Envelope>, log: set<Envelope>, part: set<Envelope>, g: Gauge)
    requires Lists(es, log) && Lists(fs, log - part) && SaneLog(log) && Separable(home, log, part)
    ensures Reading(Fold(home, es).stock, g) - Reading(Fold(home, fs).stock, g) == Sum(Effects(home, log, log * part, g))
  {
    hide Fold, Reading, Lists, SaneLog, MovesIn, Effect, Sum;
    SubsetIsSane(log, part);
    ReadingIsSum(home, es, log, g);
    ReadingIsSum(home, fs, log - part, g);
    var all := Effects(home, log, log, g);
    SumSplit(all, part);
    assert (map e | e in all && e in part :: all[e]) == Effects(home, log, log * part, g);
    assert all - part == Effects(home, log - part, log - part, g);
  }
}
