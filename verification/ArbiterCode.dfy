/** Arbitrate as it runs: validators that loop over lines, and store calls one after another, of
    which only the first few may happen. Whatever the crash point, the method leaves behind a
    trace of the state machine of module ArbiterRuns.
 */
module ArbiterCode {
  import opened Stamps
  import opened Events
  import opened Warehouse
  import opened Central
  import opened Arbiter
  import opened ArbiterRuns
  import opened ArbiterAnswers
  import opened ArbiterSafety
  import opened CentralMemory

  /** Incomplete is the error returned when the log holds part of a compensation set. */
  datatype Outcome = Decided(decision: Decision, comps: seq<Envelope>) | Crashed | Incomplete

  ghost predicate Path(tr: seq<World>)
  {
    tr != [] && forall i, j :: 0 <= i < j < |tr| && j == i + 1 ==> Step(tr[i], tr[j])
  }

  /** tr is a path of the state machine from one world to another. */
  ghost predicate Leads(first: World, tr: seq<World>, w: World)
  {
    Path(tr) && tr[0] == first && tr[|tr| - 1] == w
  }

  lemma Then(first: World, tr: seq<World>, w: World, w': World)
    requires Leads(first, tr, w) && Step(w, w')
    ensures Leads(first, tr + [w'], w')
  {
    hide Step;
  }

  lemma ThenRecord(first: World, tr: seq<World>, w: World, w': World, i: nat)
    requires Leads(first, tr, w) && Record(w, w', i)
    ensures Leads(first, tr + [w'], w')
  {
    hide Record, Leads;
    Then(first, tr, w, w');
  }

  lemma {:induction false} PathKeepsInv(tr: seq<World>, i: nat)
    requires Path(tr) && Inv(tr[0]) && i < |tr|
    ensures Inv(tr[i])
  {
    hide Inv, Step;
    if i > 0 {
      PathKeepsInv(tr, i - 1);
      StepKeepsInv(tr[i - 1], tr[i]);
    }
  }

  lemma LeadsKeepsInv(first: World, tr: seq<World>, w: World)
    requires Leads(first, tr, w) && Inv(first)
    ensures Inv(w)
  {
    hide Inv, Step;
    PathKeepsInv(tr, |tr| - 1);
  }

  /** In a consistent world a partial compensation set is never found. */
  lemma FoundSetIsWhole(w: World, comps: seq<Envelope>)
    requires Inv(w) && Busy(w, FannedOut) && w.busy.value.rej.Some? && comps != []
    requires CompensationsOf(w.store.journal.events, w.busy.value.env.id, comps)
    ensures |comps| == |w.busy.value.rej.value.events|
  {
    hide Inv, Judge, CompensationsOf;
    NoPartialCompensation(w, w.busy.value.env.id, comps);
    BusyVerdict(w);
    KnownVerdict(w, w.busy.value.env.id);
  }

  lemma EmittedIsFound(w: World)
    requires Inv(w) && w.busy.Some? && w.busy.value.phase.Emitted?
    ensures CompensationsOf(w.store.journal.events, w.busy.value.env.id, w.busy.value.phase.comps)
  {
    hide Judge, ReceiptsOk, TransitOk, VerdictsOk, OutboxOk, DecisionsOk, AnswersOk;
    AnswersAreCompensations(w.store.journal, w.verdicts, w.answers, w.busy.value.env.id);
  }

  lemma AcceptedHasNone(w: World, e: EventId)
    requires Inv(w) && e in w.store.decisions && w.store.decisions[e] == Decision(Accepted, None)
    ensures CompensationsOf(w.store.journal.events, e, [])
  {
    hide Inv;
    DecidedEventIsAnsweredOnce(w, e);
  }

  class Arbitrator {
    const store: Memory
    ghost var verdicts: Verdicts
    ghost var answers: Answers

    constructor (store: Memory)
      ensures this.store == store && verdicts == map[] && answers == map[]
    {
      this.store := store;
      verdicts, answers := map[], map[];
    }

    ghost function Idle(): World
      reads this, store
    {
      World(store.Value(), verdicts, answers, None)
    }

    ghost function During(a: Attempt): World
      reads this, store
    {
      World(store.Value(), verdicts, answers, Some(a))
    }

    // -------------------------------------------------------------- validators

    method UnknownSkuCheck(env: Envelope) returns (r: Option<Rejection>)
      ensures r == CheckSkus(store.TheBooks(), env)
    {
      var refs := store.TheBooks().refs;
      var moves := MovesOf(env.body);
      var events: seq<Draft>, excess := [], 0.0;
      for i := 0 to |moves|
        invariant events == UnknownEvents(refs, moves[..i]) && excess == UnknownTotal(refs, moves[..i])
      {
        var m := moves[i];
        assert moves[..i + 1][..i] == moves[..i];
        if !(m.sku in store.items && !store.items[m.sku]) {
          events := events + [Adjustment(m.sku, Reverse(m, m.qty), UnknownSku)];
          excess := excess + m.qty;
        }
      }
      assert moves[..|moves|] == moves;
      r := if events == [] then None else Some(Rejection(UnknownSku, events, excess));
    }

    method DeliveryNoteCheck(env: Envelope) returns (r: Option<Rejection>)
      ensures r == CheckNote(store.TheBooks(), env)
    {
      if !env.body.GoodsReceived? {
        return None;
      }
      var m := env.body.move;
      var first := store.DeliveryNoteFirstSeen(env.body.note, m.sku);
      if first.None? || first.value == env.id {
        return None;
      }
      r := Some(Rejection(DuplicateReceipt, [Adjustment(m.sku, Reverse(m, m.qty), DuplicateReceipt)], m.qty));
    }

    method PurchaseOrderCheck(env: Envelope) returns (r: Option<Rejection>)
      ensures r == CheckOrder(store.TheBooks(), env)
    {
      if !env.body.GoodsReceived? {
        return None;
      }
      var m := env.body.move;
      if (env.body.po, m.sku) !in store.orders {
        return None;
      }
      var already := store.ReceivedAgainstPO(env.body.po, m.sku);
      if env.id in store.receipts {
        already := already - store.receipts[env.id].qty;
      }
      var excess := already + m.qty - store.orders[(env.body.po, m.sku)];
      if excess <= 0.0 {
        return None;
      }
      if excess > m.qty {
        excess := m.qty;
      }
      r := Some(OverReceipt(env.body.receipt, m, excess));
    }

    method DestinationCheck(env: Envelope) returns (r: Option<Rejection>)
      ensures r == CheckDestination(store.TheBooks(), env)
    {
      if !env.body.TransferDispatched? {
        return None;
      }
      var lines := env.body.lines;
      var known := env.body.destination in store.nodes;
      var refused := !known;
      for i := 0 to |lines|
        invariant refused <==> !known || exists j :: 0 <= j < i && lines[j].sku in store.nodes[env.body.destination]
      {
        refused := refused || (known && lines[i].sku in store.nodes[env.body.destination]);
      }
      if !refused {
        return None;
      }
      var events: seq<Draft>, excess := [], 0.0;
      for i := 0 to |lines|
        invariant events == ReturnEvents(env.body.transfer, lines[..i]) && excess == Total(lines[..i])
      {
        assert lines[..i + 1][..i] == lines[..i];
        events := events + [Adjustment(env.body.transfer, Reverse(lines[i], lines[i].qty), TransferRejected)];
        excess := excess + lines[i].qty;
      }
      assert lines[..|lines|] == lines;
      r := Some(Rejection(TransferRejected, events, excess));
    }

    method OverReceiptCheck(env: Envelope) returns (r: Option<Rejection>)
      ensures r == CheckReceipt(store.TheBooks(), env)
    {
      if !env.body.TransferReceived? {
        return None;
      }
      var b, t, lines := store.TheBooks(), env.body.transfer, env.body.lines;
      var events: seq<Draft>, excess := [], 0.0;
      for i := 0 to |lines|
        invariant events == OverEvents(b, env.id, t, lines[..i]) && excess == OverTotal(b, env.id, t, lines[..i])
      {
        assert lines[..i + 1][..i] == lines[..i];
        var m := lines[i];
        var k := KeyOf(m);
        var remaining := 0.0;
        if (t, k) in store.transit {
          var own := if (env.id, k) in store.folded then store.folded[(env.id, k)] else 0.0;
          remaining := store.transit[(t, k)].dispatched - (store.transit[(t, k)].received - own);
        }
        var over := m.qty - remaining;
        assert Over(b, env.id, t, m) == if over <= 0.0 then 0.0 else over;
        if over <= 0.0 {
          assert events + [] == events;
          continue;
        }
        events := events + [Adjustment(m.sku, Reverse(m, over), TransferOverReceipt)];
        excess := excess + over;
      }
      assert lines[..|lines|] == lines;
      r := if events == [] then None else Some(Rejection(TransferOverReceipt, events, excess));
    }

    /** The chain, in the order it runs; the first to fire decides. */
    method Validate(env: Envelope) returns (r: Option<Rejection>)
      ensures r == Judge(store.TheBooks(), env)
    {
      hide CheckSkus, CheckNote, CheckOrder, CheckDestination, CheckReceipt;
      r := UnknownSkuCheck(env);
      if r.Some? { return; }
      r := DeliveryNoteCheck(env);
      if r.Some? { return; }
      r := PurchaseOrderCheck(env);
      if r.Some? { return; }
      r := DestinationCheck(env);
      if r.Some? { return; }
      r := OverReceiptCheck(env);
    }

    // -------------------------------------------------------------- recording

    /** Records a receipt, unless it was refused outright. */
    method RecordGoods(env: Envelope, rej: Option<Rejection>, calls: nat, ghost first: World, ghost start: seq<World>)
      returns (left: nat, ghost done: nat, ghost tr: seq<World>)
      requires env.body.GoodsReceived? && Leads(first, start, During(Attempt(env, rej, Recording(0))))
      modifies store`receipts
      ensures Leads(first, tr, During(Attempt(env, rej, Recording(done))))
      ensures done <= RecordSteps(env.body, rej) && (left > 0 ==> done == RecordSteps(env.body, rej))
      ensures calls <= left + RecordSteps(env.body, rej)
    {
      hide Leads;
      left, done, tr := calls, 0, start;
      if left == 0 || (rej.Some? && rej.value.reason != PoOverReceipt) {
        return;
      }
      left := left - 1;
      var m := env.body.move;
      var qty := m.qty;
      if rej.Some? {
        qty := qty - rej.value.excess;
      }
      ghost var w := During(Attempt(env, rej, Recording(0)));
      store.RecordReceipt(env.id, Fact(env.id.node, env.body.po, env.body.note, m.sku, qty));
      done := 1;
      ghost var w' := During(Attempt(env, rej, Recording(1)));
      ThenRecord(first, tr, w, w', 0);
      tr := tr + [w'];
    }

    /** Records a dispatch line by line, and marks the transfer failed if it was refused. */
    method RecordDispatched(env: Envelope, rej: Option<Rejection>, calls: nat, ghost first: World, ghost start: seq<World>)
      returns (left: nat, ghost done: nat, ghost tr: seq<World>)
      requires env.body.TransferDispatched? && Leads(first, start, During(Attempt(env, rej, Recording(0))))
      modifies store`transit
      ensures Leads(first, tr, During(Attempt(env, rej, Recording(done))))
      ensures done <= RecordSteps(env.body, rej) && (left > 0 ==> done == RecordSteps(env.body, rej))
      ensures calls <= left + RecordSteps(env.body, rej)
    {
      hide Leads;
      left, done, tr := calls, 0, start;
      if left == 0 { return; }
      var g := env.body;
      for i := 0 to |g.lines|
        invariant left > 0 && done == i && calls <= left + i
        invariant Leads(first, tr, During(Attempt(env, rej, Recording(done))))
      {
        ghost var w := During(Attempt(env, rej, Recording(i)));
        store.RecordDispatch(g.transfer, KeyOf(g.lines[i]), Row(g.source, g.destination, g.lines[i].qty, 0.0, false));
        done := i + 1;
        ghost var w' := During(Attempt(env, rej, Recording(i + 1)));
        ThenRecord(first, tr, w, w', i);
        tr := tr + [w'];
        left := left - 1;
        if left == 0 { return; }
      }
      if rej.None? { return; }
      ghost var w := During(Attempt(env, rej, Recording(|g.lines|)));
      store.FailTransfer(g.transfer);
      done := |g.lines| + 1;
      ghost var w' := During(Attempt(env, rej, Recording(|g.lines| + 1)));
      ThenRecord(first, tr, w, w', |g.lines|);
      tr := tr + [w'];
      left := left - 1;
    }

    /** Folds a transfer receipt line by line, as far as the dispatch still covers each. */
    method RecordReceived(env: Envelope, rej: Option<Rejection>, calls: nat, ghost first: World, ghost start: seq<World>)
      returns (left: nat, ghost done: nat, ghost tr: seq<World>)
      requires env.body.TransferReceived? && Leads(first, start, During(Attempt(env, rej, Recording(0))))
      modifies store`transit, store`folded
      ensures Leads(first, tr, During(Attempt(env, rej, Recording(done))))
      ensures done <= RecordSteps(env.body, rej) && (left > 0 ==> done == RecordSteps(env.body, rej))
      ensures calls <= left + RecordSteps(env.body, rej)
    {
      hide Leads;
      left, done, tr := calls, 0, start;
      if left == 0 { return; }
      var t, lines := env.body.transfer, env.body.lines;
      for i := 0 to |lines|
        invariant left > 0 && done == i && calls <= left + i
        invariant Leads(first, tr, During(Attempt(env, rej, Recording(done))))
      {
        ghost var w := During(Attempt(env, rej, Recording(i)));
        var k := KeyOf(lines[i]);
        if (t, k) in store.transit {
          var accepted := lines[i].qty;
          var remaining := store.transit[(t, k)].dispatched - store.transit[(t, k)].received;
          if accepted > remaining {
            accepted := remaining;
          }
          if accepted > 0.0 {
            var ok := store.AddReceived(env.id, t, k, accepted);
            left := left - 1;
          }
        }
        done := i + 1;
        ghost var w' := During(Attempt(env, rej, Recording(i + 1)));
        ThenRecord(first, tr, w, w', i);
        tr := tr + [w'];
        if left == 0 { return; }
      }
    }

    /** Folds the event's consequences into the books; left is zero when a crash cut it short, or
        is about to. */
    method RecordAll(env: Envelope, rej: Option<Rejection>, calls: nat, ghost first: World, ghost start: seq<World>)
      returns (left: nat, ghost done: nat, ghost tr: seq<World>)
      requires Leads(first, start, During(Attempt(env, rej, Recording(0))))
      modifies store`receipts, store`transit, store`folded
      ensures Leads(first, tr, During(Attempt(env, rej, Recording(done))))
      ensures done <= RecordSteps(env.body, rej) && (left > 0 ==> done == RecordSteps(env.body, rej))
      ensures calls <= left + RecordSteps(env.body, rej)
    {
      hide Leads;
      left, done, tr := calls, 0, start;
      match env.body
      case GoodsReceived(_, _, _, _) => left, done, tr := RecordGoods(env, rej, calls, first, start);
      case TransferDispatched(_, _, _, _) => left, done, tr := RecordDispatched(env, rej, calls, first, start);
      case TransferReceived(_, _) => left, done, tr := RecordReceived(env, rej, calls, first, start);
      case _ =>
    }

    // -------------------------------------------------------------- the procedure

    /** Who else needs the event: the destination of an accepted dispatch, or the source of the
        first received line that has a row. */
    method FanTargetOf(env: Envelope, rej: Option<Rejection>) returns (target: Option<NodeId>)
      ensures target == FanTarget(store.TheBooks(), env.body, rej)
    {
      if env.body.TransferDispatched? {
        return if rej.Some? then None else Some(env.body.destination);
      }
      if !env.body.TransferReceived? {
        return None;
      }
      var t, lines := env.body.transfer, env.body.lines;
      for i := 0 to |lines|
        invariant SourceOf(store.transit, t, lines) == SourceOf(store.transit, t, lines[i..])
      {
        if (t, KeyOf(lines[i])) in store.transit {
          return Some(store.transit[(t, KeyOf(lines[i]))].source);
        }
      }
      target := None;
    }

    /** Persists the event, decides on it, records the consequences and answers a rejection. At
        most calls store calls happen; then the process stops. */
    method Arbitrate(env: Envelope, now: Int64, calls: nat) returns (outcome: Outcome, ghost tr: seq<World>)
      requires Admissible(store.events, verdicts, env)
      requires var rej := Judge(store.TheBooks(), env);
               rej.Some? ==> ClockRoom(store.clock, env.hlc, now, |rej.value.events|)
      modifies this, store
      ensures Leads(old(Idle()), tr, Idle())
      ensures outcome.Decided? ==> env.id in store.decisions && store.decisions[env.id] == outcome.decision
      ensures env.id in old(store.decisions) ==> tr == [old(Idle())] && outcome.Decided?
      ensures calls > RecordSteps(env.body, Judge(old(store.TheBooks()), env)) + 4 ==> outcome != Crashed
      ensures Inv(old(Idle())) ==>
                && Inv(Idle()) && outcome != Incomplete
                && (outcome.Decided? ==> CompensationsOf(store.events, env.id, outcome.comps))
    {
      hide Leads, Judge, RecordSteps, FanTarget, ClockRoom, WellFormed, Timely, Inv, CompensationsOf;
      ghost var first := Idle();
      tr := [first];
      LeadsNowhere(first);
      if env.id in store.decisions {
        var comps := store.CompensationsOf(env.id);
        return Decided(store.decisions[env.id], comps), tr;
      }
      if calls == 0 { return Crashed, tr; }
      var added := store.Append([env]);
      AppendAllOne(old(store.TheJournal()), env);
      var rej := Validate(env);
      ghost var a := Attempt(env, rej, Recording(0));
      assert Begin(first, During(a), env);
      Then(first, tr, first, During(a));
      tr := tr + [During(a)];
      var left; ghost var done;
      left, done, tr := RecordAll(env, rej, calls - 1, first, tr);
      a := a.(phase := Recording(done));
      if left == 0 {
        tr := Stop(first, tr, a);
        outcome := Crashed;
      } else {
        tr := Complete(first, tr, a);
        outcome, tr := FinishAttempt(env, rej, now, left, first, tr);
      }
      if Inv(first) { LeadsKeepsInv(first, tr, Idle()); }
    }

    static lemma LeadsNowhere(w: World)
      ensures Leads(w, [w], w)
    {
    }

    /** A crash: nothing more happens. */
    ghost method Stop(first: World, tr: seq<World>, a: Attempt) returns (tr': seq<World>)
      requires Leads(first, tr, During(a))
      ensures Leads(first, tr', Idle())
    {
      hide Leads;
      assert Crash(During(a), Idle());
      Then(first, tr, During(a), Idle());
      tr' := tr + [Idle()];
    }

    /** The record is complete; its verdict is noted. */
    ghost method Complete(first: World, tr: seq<World>, a: Attempt) returns (tr': seq<World>)
      requires Leads(first, tr, During(a)) && a.phase == Recording(RecordSteps(a.env.body, a.rej))
      modifies this`verdicts
      ensures Leads(first, tr', During(a.(phase := Recorded)))
    {
      hide Leads;
      ghost var w := During(a);
      if a.env.id !in verdicts {
        verdicts := verdicts[a.env.id := a.rej];
      }
      ghost var w' := During(a.(phase := Recorded));
      assert Settle(w, w');
      Then(first, tr, w, w');
      tr' := tr + [w'];
    }

    /** Fan-out, then the decision: outright for an accepted event, after its compensations are in
        the log and queued for a rejected one. */
    method FinishAttempt(env: Envelope, rej: Option<Rejection>, now: Int64, calls: nat, ghost first: World, ghost start: seq<World>)
      returns (outcome: Outcome, ghost tr: seq<World>)
      requires calls > 0 && env.id in store.events && store.events[env.id] == env
      requires rej.Some? ==> ClockRoom(store.clock, env.hlc, now, |rej.value.events|)
      requires Leads(first, start, During(Attempt(env, rej, Recorded)))
      modifies this, store
      ensures Leads(first, tr, Idle())
      ensures outcome.Decided? ==> env.id in store.decisions && store.decisions[env.id] == outcome.decision
      ensures calls > 3 ==> outcome != Crashed
      ensures Inv(first) ==> outcome != Incomplete && (outcome.Decided? ==> CompensationsOf(store.events, env.id, outcome.comps))
    {
      hide Leads, FanTarget, ClockRoom, Enqueue, Inv, CompensationsOf;
      var left := calls;
      tr := start;
      ghost var w := During(Attempt(env, rej, Recorded));
      var target := FanTargetOf(env, rej);
      if target.Some? {
        store.Enqueue(target.value, [env]);
        left := left - 1;
      }
      ghost var a := Attempt(env, rej, FannedOut);
      assert Fan(w, During(a));
      Then(first, tr, w, During(a));
      tr := tr + [During(a)];
      if left == 0 {
        tr := Stop(first, tr, a);
        return Crashed, tr;
      }
      if rej.None? {
        ghost var before := During(a);
        var decision := Decision(Accepted, None);
        store.RecordDecision(env.id, decision);
        assert Accept(before, Idle());
        Then(first, tr, before, Idle());
        tr := tr + [Idle()];
        if Inv(first) {
          LeadsKeepsInv(first, tr, Idle());
          AcceptedHasNone(Idle(), env.id);
        }
        return Decided(decision, []), tr;
      }
      outcome, tr := Compensate(env, rej, now, left, first, tr);
    }

    /** Emits the compensations unless an earlier attempt did, queues them, records the rejection. */
    method Compensate(env: Envelope, rej: Option<Rejection>, now: Int64, calls: nat, ghost first: World, ghost start: seq<World>)
      returns (outcome: Outcome, ghost tr: seq<World>)
      requires calls > 0 && env.id in store.events && store.events[env.id] == env && rej.Some?
      requires ClockRoom(store.clock, env.hlc, now, |rej.value.events|)
      requires Leads(first, start, During(Attempt(env, rej, FannedOut)))
      modifies this, store
      ensures Leads(first, tr, Idle())
      ensures outcome.Decided? ==> env.id in store.decisions && store.decisions[env.id] == outcome.decision
      ensures calls > 2 ==> outcome != Crashed
      ensures Inv(first) ==> outcome != Incomplete && (outcome.Decided? ==> CompensationsOf(store.events, env.id, outcome.comps))
    {
      hide Leads, ClockRoom, Enqueue, EmitCentral, Sealed, Inv, CompensationsOf;
      var left := calls;
      tr := start;
      ghost var w := During(Attempt(env, rej, FannedOut));
      var comps := store.CompensationsOf(env.id);
      if |comps| == 0 {
        comps := store.EmitCentral(rej.value.events, env.id, now);
        left := left - 1;
        answers := answers[env.id := comps];
        assert Emit(w, During(Attempt(env, rej, Emitted(comps))), now);
      } else if |comps| != |rej.value.events| {
        if Inv(first) {
          LeadsKeepsInv(first, tr, w);
          FoundSetIsWhole(w, comps);
        }
        tr := Stop(first, tr, Attempt(env, rej, FannedOut));
        return Incomplete, tr;
      } else {
        assert Replay(w, During(Attempt(env, rej, Emitted(comps))), comps);
      }
      ghost var a := Attempt(env, rej, Emitted(comps));
      Then(first, tr, w, During(a));
      tr := tr + [During(a)];
      if left == 0 {
        tr := Stop(first, tr, a);
        return Crashed, tr;
      }
      if Inv(first) {
        LeadsKeepsInv(first, tr, During(a));
        EmittedIsFound(During(a));
      }
      outcome, tr := QueueAndReject(env, rej, comps, left, first, tr);
    }

    method QueueAndReject(env: Envelope, rej: Option<Rejection>, comps: seq<Envelope>, calls: nat, ghost first: World, ghost start: seq<World>)
      returns (outcome: Outcome, ghost tr: seq<World>)
      requires calls > 0 && rej.Some?
      requires Leads(first, start, During(Attempt(env, rej, Emitted(comps))))
      modifies this, store
      ensures Leads(first, tr, Idle())
      ensures outcome.Decided? ==> env.id in store.decisions && store.decisions[env.id] == outcome.decision
      ensures calls > 1 ==> outcome != Crashed
      ensures store.events == old(store.events) && outcome != Incomplete && (outcome.Decided? ==> outcome.comps == comps)
    {
      hide Leads, Enqueue;
      tr := start;
      ghost var w := During(Attempt(env, rej, Emitted(comps)));
      store.Enqueue(env.id.node, comps);
      ghost var w' := During(Attempt(env, rej, Queued(comps)));
      assert Queue(w, w');
      Then(first, tr, w, w');
      tr := tr + [w'];
      if calls == 1 {
        tr := Stop(first, tr, Attempt(env, rej, Queued(comps)));
        return Crashed, tr;
      }
      var decision := Decision(Rejected(rej.value.reason), if |comps| > 0 then Some(comps[0].id) else None);
      store.RecordDecision(env.id, decision);
      assert Reject(w', Idle());
      Then(first, tr, w', Idle());
      return Decided(decision, comps), tr + [Idle()];
    }
  }
}
