/**
 * Who will move a dispatching entry on (src/cli/payment-queue.ts): a running
 * dispatch, a resolver ask, an ask to be made again, or an interrupted row before
 * start. The code means each to have exactly one of these. An answer that is
 * neither 'completed' nor 'unpaid' leaves the entry with none, until a restart.
 */
module QueueOwners {
  import opened PaymentQueue

  /** How many of the four hold the entry. */
  ghost function Four(q: Queue, id: Id): nat {
    (if id in q.running then 1 else 0) + (if id in q.asks then 1 else 0)
    + (if id in q.awaitingOutcome then 1 else 0) + (if id in q.interrupted then 1 else 0)
  }

  // ----- runs with their operations named -----

  /** A boot that completes or stops, or an operation carried out whole or stopped after `k` effects. */
  datatype Move = Boots | StopsBooting | Does(op: Op) | StopsIn(op: Op, k: nat)

  ghost predicate Moves(c: Config, w: World, m: Move, w': World) {
    match m
    case Boots => w'.queue.Some? && exists order, done :: BootStep(c, w, order, done, w')
    case StopsBooting => w'.queue.None? && exists order, done :: BootStep(c, w, order, done, w')
    case Does(op) => w'.queue.Some? && OpStep(c, w, op, w')
    case StopsIn(op, k) =>
      && w'.queue.None? && OpStep(c, w, op, w')
      && var es := Perform(c, w.queue.value, LedgerOf(w.history), op).1;
         k <= |es| && w'.history == w.history + es[..k]
  }

  ghost predicate NamedRun(c: Config, ws: seq<World>, moves: seq<Move>) {
    && |ws| == |moves| + 1 && ws[0] == World(None, [])
    && (forall i :: 0 <= i < |moves| ==> Moves(c, ws[i], moves[i], ws[i + 1]))
  }

  lemma MoveIsStep(c: Config, w: World, m: Move, w': World)
    requires Moves(c, w, m, w')
    ensures Next(c, w, w')
  {
    hide OpStep, BootStep, Perform, LedgerOf;
  }

  /** Naming the operations leaves no step out. */
  lemma StepIsMove(c: Config, w: World, w': World) returns (m: Move)
    requires Next(c, w, w')
    ensures Moves(c, w, m, w')
  {
    hide Perform, Restore, LedgerOf, Enabled;
    if order, done :| BootStep(c, w, order, done, w') {
      m := if w'.queue.Some? then Boots else StopsBooting;
    } else {
      var op :| OpStep(c, w, op, w');
      if w'.queue.Some? {
        m := Does(op);
      } else {
        var es := Perform(c, w.queue.value, LedgerOf(w.history), op).1;
        var k :| 0 <= k <= |es| && w' == World(None, w.history + es[..k]);
        m := StopsIn(op, k);
      }
    }
  }

  lemma NamedInv(c: Config, ws: seq<World>, moves: seq<Move>, i: nat)
    requires NamedRun(c, ws, moves) && i < |ws|
    ensures WorldInv(c, ws[i])
  {
    hide Moves, Next, WorldInv;
    forall k | 0 <= k < |ws| - 1 ensures Next(c, ws[k], ws[k + 1]) {
      assert Moves(c, ws[k], moves[k], ws[k + 1]);
      MoveIsStep(c, ws[k], moves[k], ws[k + 1]);
    }
    RunInv(c, ws, i);
  }

  predicate GivesUnclear(m: Move, id: Id) {
    m.Does? && m.op.OpAnswer? && m.op.id == id && m.op.verdict == WasUnclear
  }

  /** At step `j`, in the process still up at `i`, the entry got an answer that is neither. */
  ghost predicate UnclearAt(moves: seq<Move>, i: nat, id: Id, j: nat)
    requires i <= |moves|
  {
    j < i && GivesUnclear(moves[j], id) && forall k :: j < k < i ==> moves[k].Does?
  }

  ghost predicate AnsweredUnclear(moves: seq<Move>, i: nat, id: Id)
    requires i <= |moves|
  {
    exists j: nat :: UnclearAt(moves, i, id, j)
  }

  // ----- one operation -----

  lemma {:induction false} PassUnclear(c: Config, q: Queue, answers: seq<bool>)
    requires forall id :: id in q.pending ==> id in q.info
    ensures Pass(c, q, answers).0.unclear == q.unclear
    decreases |q.pending|
  {
    var i := FirstReleased(q.pending, q.restored);
    if !q.stopped && q.activeCount < c.maxConcurrent && i < |q.pending| {
      var id := q.pending[i];
      var p := q.info[id].payment;
      if p.amount.Malformed? {
        PassUnclear(c, RecordFailed(c, q.(pending := RemoveAt(q.pending, i)), id).0, answers);
      } else if !(AmountToCheck(p) > 0 && (answers == [] || !answers[0])) {
        PassUnclear(c, Dispatch(q, i).0, if AmountToCheck(p) > 0 then answers[1..] else answers);
      }
    }
  }

  lemma AnswerUnclear(c: Config, q: Queue, id: Id, verdict: Verdict, answers: seq<bool>, x: Id)
    requires id in q.asks && id in q.info && Is(q.status, id, Dispatching) && forall x :: x in q.pending ==> x in q.info
    ensures x in Answer(c, q, id, verdict, answers).0.unclear <==> x in q.unclear || (x == id && verdict == WasUnclear)
  {
    hide Pass, InsertPending;
    if verdict == WasUnpaid && q.asks[id] != Fail {
      InsertPendingMembers(q.info, q.pending, id);
      PassUnclear(c, q.(asks := q.asks - {id}, status := q.status[id := Queued],
                        pending := InsertPending(q.info, q.pending, id)), answers);
    }
  }

  lemma StartUnclear(c: Config, q: Queue, refusals: set<Id>, answers: seq<bool>)
    requires forall id :: id in q.pending ==> id in q.info
    ensures Start(c, q, refusals, answers).0.unclear == q.unclear
  {
    hide Pass;
    if !q.stopped && !q.started {
      var left := map id | id in q.interrupted && id in q.active :: Requeue;
      var q1 := AskAll(c, Resettle(c, q.(started := true, restored := {}, interrupted := {}), refusals), left, refusals);
      PassUnclear(c, q1, answers);
    }
  }

  lemma AskedIsOut(c: Config, q: Queue, l: Ledger, id: Id)
    requires Good(c, q, l)
    ensures Owners(OwningOf(q), id) == (if Is(q.status, id, Dispatching) then 1 else 0)
    ensures id in q.asks || id in q.unclear ==> Is(q.status, id, Dispatching)
  {
    assert Owners(OwningOf(q), id) >= 0;
  }

  lemma UnownedOf(c: Config, q: Queue, l: Ledger, id: Id)
    requires Good(c, q, l) && id in q.unclear
    ensures Is(q.status, id, Dispatching) && Four(q, id) == 0
  {
    AskedIsOut(c, q, l, id);
  }

  /** Only an answer that is neither adds to the entries nobody will move. */
  lemma PerformUnclear(c: Config, q: Queue, l: Ledger, op: Op, id: Id)
    requires Good(c, q, l) && Enabled(q, l, op) && forall x :: x in q.pending ==> x in q.info
    ensures id in Perform(c, q, l, op).0.unclear <==> id in q.unclear || GivesUnclear(Does(op), id)
  {
    hide Good, Pass, Start, InsertPending;
    match op
    case OpEnqueue(x, p, answers) =>
      InsertPendingMembers(q.info[x := Info(p, q.nextSequence)], q.pending, x);
      PassUnclear(c, Enqueued(q, x, p), answers);
    case OpStart(refusals, answers) => StartUnclear(c, q, refusals, answers);
    case OpPoke(answers) => PassUnclear(c, q, answers);
    case OpEndDispatch(x, result, refused, answers) => PassUnclear(c, Ended(c, q, x, result, refused), answers);
    case OpAnswer(x, verdict, answers) =>
      AskedIsOut(c, q, l, x);
      AnswerUnclear(c, q, x, verdict, answers, id);
    case _ =>
  }

  // ----- over runs -----

  lemma NoneYet(moves: seq<Move>, i: nat, id: Id)
    requires i < |moves| && !moves[i].Does?
    ensures !AnsweredUnclear(moves, i + 1, id)
  {
    var n := i + 1;
    if j: nat :| UnclearAt(moves, n, id, j) {
      assert false;
    }
  }

  lemma OneMore(moves: seq<Move>, i: nat, id: Id)
    requires i < |moves| && moves[i].Does?
    ensures AnsweredUnclear(moves, i + 1, id) <==> AnsweredUnclear(moves, i, id) || GivesUnclear(moves[i], id)
  {
    var n := i + 1;
    if j: nat :| UnclearAt(moves, n, id, j) {
      assert j < i ==> UnclearAt(moves, i, id, j);
    }
    if j: nat :| UnclearAt(moves, i, id, j) {
      assert UnclearAt(moves, n, id, j);
    }
    if GivesUnclear(moves[i], id) {
      assert UnclearAt(moves, n, id, i);
    }
  }

  lemma BootClear(c: Config, w: World, w': World)
    requires w'.queue.Some? && exists order, done :: BootStep(c, w, order, done, w')
    ensures w'.queue.value.unclear == {}
  {
  }

  lemma {:induction false} UnclearIsHistory(c: Config, ws: seq<World>, moves: seq<Move>, i: nat, id: Id)
    requires NamedRun(c, ws, moves) && i < |ws| && ws[i].queue.Some?
    ensures id in ws[i].queue.value.unclear <==> AnsweredUnclear(moves, i, id)
  {
    hide WorldInv, Good, Perform, Enabled, BootStep, AnsweredUnclear;
    assert i > 0;
    assert Moves(c, ws[i - 1], moves[i - 1], ws[i]);
    if moves[i - 1].Does? {
      var w, op := ws[i - 1], moves[i - 1].op;
      assert OpStep(c, w, op, ws[i]);
      NamedInv(c, ws, moves, i - 1);
      GoodOf(c, w);
      PerformUnclear(c, w.queue.value, LedgerOf(w.history), op, id);
      OneMore(moves, i - 1, id);
      UnclearIsHistory(c, ws, moves, i - 1, id);
    } else {
      BootClear(c, ws[i - 1], ws[i]);
      NoneYet(moves, i - 1, id);
    }
  }

  lemma GoodOf(c: Config, w: World)
    requires WorldInv(c, w) && w.queue.Some?
    ensures Good(c, w.queue.value, LedgerOf(w.history))
  {
  }

  /**
   * In every reachable state a dispatching entry has at most one of the four
   * owners, and exactly one if and only if it got no answer in this process that
   * was neither 'completed' nor 'unpaid'.
   */
  lemma OwnedUnlessUnclear(c: Config, ws: seq<World>, moves: seq<Move>, i: nat, id: Id)
    requires NamedRun(c, ws, moves) && i < |ws| && ws[i].queue.Some?
    requires Is(ws[i].queue.value.status, id, Dispatching)
    ensures Four(ws[i].queue.value, id) <= 1
    ensures Four(ws[i].queue.value, id) == 1 <==> !AnsweredUnclear(moves, i, id)
  {
    hide WorldInv, Good, AnsweredUnclear, Moves;
    NamedInv(c, ws, moves, i);
    GoodOf(c, ws[i]);
    UnclearIsHistory(c, ws, moves, i, id);
    AskedIsOut(c, ws[i].queue.value, LedgerOf(ws[i].history), id);
  }

  /** No entry that is not dispatching has any of the four owners. */
  lemma OthersUnowned(c: Config, ws: seq<World>, moves: seq<Move>, i: nat, id: Id)
    requires NamedRun(c, ws, moves) && i < |ws| && ws[i].queue.Some?
    requires !Is(ws[i].queue.value.status, id, Dispatching)
    ensures Four(ws[i].queue.value, id) == 0 && !AnsweredUnclear(moves, i, id)
  {
    hide WorldInv, Good, AnsweredUnclear, Moves;
    NamedInv(c, ws, moves, i);
    GoodOf(c, ws[i]);
    UnclearIsHistory(c, ws, moves, i, id);
    AskedIsOut(c, ws[i].queue.value, LedgerOf(ws[i].history), id);
  }

  /**
   * After such an answer, and until the process ends, the entry stays as it is:
   * dispatching in memory and in its row, with none of the four, and never asked
   * about or answered again.
   */
  lemma {:induction false} UnclearStays(c: Config, ws: seq<World>, moves: seq<Move>, j: nat, i: nat, id: Id)
    requires NamedRun(c, ws, moves) && j < i < |ws| && GivesUnclear(moves[j], id)
    requires forall k :: j < k < i ==> moves[k].Does?
    ensures ws[i].queue.Some?
    ensures var q := ws[i].queue.value;
      && Is(q.status, id, Dispatching) && Four(q, id) == 0
      && HasStatus(LedgerOf(ws[i].history), id, Dispatching)
    ensures forall k :: j < k < i ==> !(moves[k].op.OpAnswer? && moves[k].op.id == id)
  {
    hide WorldInv, Good, OpStep, BootStep, Next, Owners;
    assert Moves(c, ws[i - 1], moves[i - 1], ws[i]);
    assert UnclearAt(moves, i, id, j);
    NamedInv(c, ws, moves, i);
    GoodOf(c, ws[i]);
    UnclearIsHistory(c, ws, moves, i, id);
    var q, l := ws[i].queue.value, LedgerOf(ws[i].history);
    UnownedOf(c, q, l, id);
    RowAgrees(c, q, l, id);
    if j < i - 1 {
      UnclearStays(c, ws, moves, j, i - 1, id);
      NotAsked(c, ws[i - 1], moves[i - 1].op, ws[i], id);
    }
  }

  lemma NotAsked(c: Config, w: World, op: Op, w': World, id: Id)
    requires OpStep(c, w, op, w') && Four(w.queue.value, id) == 0
    ensures !(op.OpAnswer? && op.id == id)
  {
    hide Perform;
  }

  lemma RowAgrees(c: Config, q: Queue, l: Ledger, id: Id)
    requires Good(c, q, l) && Is(q.status, id, Dispatching)
    ensures HasStatus(l, id, Dispatching)
  {
  }

  // ----- it happens -----

  const PLAIN: Payment := Payment(1.0, Absent, 0, 0, 0)
  const ASKING: Config := Config(1, None, true, true)

  /** The queue of a process that queued and sent entry 0, its payer still out. */
  ghost function SentQueue(): Queue {
    Queue(map[0 := Info(PLAIN, 0)], map[0 := Dispatching], {0}, [], [], {}, 1, 1, true, false, {}, {}, map[], {0}, map[], {})
  }

  lemma SendsOne()
    ensures var (q', es) := Enqueue(ASKING, Empty().(started := true), 0, PLAIN, []);
      q' == SentQueue() && es == [Save(0, PLAIN), Write(0, Dispatching), Call(0)]
  {
    var q := Empty().(started := true);
    var q1 := Enqueued(q, 0, PLAIN);
    assert q1.pending == [0];
    assert FirstReleased([0], {}) == 0;
    var q2 := Dispatch(q1, 0).0;
    assert q2.pending == [] && q2.running == {0} && q2.activeCount == 1;
    assert q2.status == map[0 := Dispatching];
    assert q2 == SentQueue();
    assert Pass(ASKING, q2, []) == (q2, []);
    assert AmountToCheck(PLAIN) == 0;
    assert Pass(ASKING, q1, []).0 == q2;
    assert Pass(ASKING, q1, []).1 == [Write(0, Dispatching), Call(0)];
  }

  // The worlds of the run, one after each step.
  ghost function Booted(): World { World(Some(Empty()), [Boot]) }

  ghost function Begun(): World { World(Some(Empty().(started := true)), [Boot]) }

  ghost function Sent(): World {
    World(Some(SentQueue()), [Boot] + [Save(0, PLAIN), Write(0, Dispatching), Call(0)])
  }

  ghost function Asking(): World {
    World(Some(SentQueue().(activeCount := 0, running := {}, asks := map[0 := Fail])), Sent().history + [Write(0, Dispatching)])
  }

  ghost function Left(): World {
    World(Some(SentQueue().(activeCount := 0, running := {}, unclear := {0})), Asking().history + [])
  }

  /** The run: boot, start, enqueue and send; the payer times out; the resolver's answer is neither. */
  lemma UnclearHappens() returns (ws: seq<World>, moves: seq<Move>)
    ensures NamedRun(ASKING, ws, moves) && ws[|moves|].queue.Some?
    ensures var q := ws[|moves|].queue.value; Is(q.status, 0, Dispatching) && Four(q, 0) == 0
    ensures AnsweredUnclear(moves, |moves|, 0)
  {
    hide Moves, Booted, Begun, Sent, Asking;
    ws := [World(None, []), Booted(), Begun(), Sent(), Asking(), Left()];
    moves := [Boots, Does(OpStart({}, [])), Does(OpEnqueue(0, PLAIN, [])),
              Does(OpEndDispatch(0, StillPending, false, [])), Does(OpAnswer(0, WasUnclear, []))];
    BootsEmpty();
    StartsEmpty();
    SendsOnce();
    AsksOnce();
    LeavesIt();
    assert UnclearAt(moves, 5, 0, 4);
  }

  lemma SendsOnce()
    ensures Moves(ASKING, Begun(), Does(OpEnqueue(0, PLAIN, [])), Sent())
  {
    SendsOne();
    assert 0 !in LedgerOf([Boot]).seen;
    assert OpStep(ASKING, Begun(), OpEnqueue(0, PLAIN, []), Sent());
  }

  lemma AsksOnce()
    ensures Moves(ASKING, Sent(), Does(OpEndDispatch(0, StillPending, false, [])), Asking())
  {
    AsksOne();
    assert OpStep(ASKING, Sent(), OpEndDispatch(0, StillPending, false, []), Asking());
  }

  lemma LeavesIt()
    ensures Moves(ASKING, Asking(), Does(OpAnswer(0, WasUnclear, [])), Left())
  {
    var q := Asking().queue.value;
    assert q.asks - {0} == map[];
    assert Answer(ASKING, q, 0, WasUnclear, []).0 == Left().queue.value;
    assert OpStep(ASKING, Asking(), OpAnswer(0, WasUnclear, []), Left());
  }

  lemma BootsEmpty()
    ensures Moves(ASKING, World(None, []), Boots, Booted())
  {
    var rows: map<Id, Row> := map[];
    assert LedgerOf([]).rows == rows;
    var r := Restore(ASKING, rows, [], []);
    assert r.0 == Empty() && r.1 == [Boot] + [];
    assert [] + [Boot] == [Boot];
    assert BootStep(ASKING, World(None, []), [], [], Booted());
  }

  lemma StartsEmpty()
    ensures Moves(ASKING, Booted(), Does(OpStart({}, [])), Begun())
  {
    var q := Empty();
    var left := map id | id in q.interrupted && id in q.active :: Requeue;
    assert left == map[];
    var q1 := Resettle(ASKING, q.(started := true, restored := {}, interrupted := {}), {});
    assert q1 == q.(started := true);
    assert AskAll(ASKING, q1, left, {}) == q1;
    assert Pass(ASKING, q1, []) == (q1, []);
    assert [Boot] + [] == [Boot];
  }

  lemma AsksOne()
    ensures var (q', es) := EndDispatch(ASKING, SentQueue(), 0, StillPending, false, []);
      q' == SentQueue().(activeCount := 0, running := {}, asks := map[0 := Fail]) && es == [Write(0, Dispatching)]
  {
    var q := SentQueue();
    var q1 := Ended(ASKING, q, 0, StillPending, false);
    assert q.running - {0} == {} && q.status[0 := Dispatching] == q.status;
    assert Pass(ASKING, q1, []) == (q1, []);
    assert q1 == q.(activeCount := 0, running := {}, asks := map[0 := Fail]);
    assert [Write(0, Dispatching)] + [] == [Write(0, Dispatching)];
  }
}
