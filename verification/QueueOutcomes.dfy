/**
 * How each entry of the payment queue ends (src/cli/payment-queue.ts): which
 * answers of the payer, the resolver and the caller lead to which final status,
 * over every run, stops at any point included.
 */
module QueueOutcomes {
  import opened PaymentQueue
  import opened QueueOwners

  // ----- final statuses are the ones written -----

  lemma {:induction false} GoneStaysGone(l: Ledger, es: seq<Effect>, id: Id)
    requires id in l.seen && id !in l.rows && AllowedAll(l, es)
    ensures id !in ApplyAll(l, es).rows
    decreases |es|
  {
    if es != [] {
      GoneStaysGone(Apply(l, es[0]), es[1..], id);
    }
  }

  /** A row ends with a final status exactly if that status was ever written to it. */
  lemma {:induction false} FinalIsWritten(l: Ledger, es: seq<Effect>, id: Id, s: Status)
    requires AllowedAll(l, es) && l.rows.Keys <= l.seen && !IsActive(s)
    ensures id in ApplyAll(l, es).rows ==>
      (HasStatus(ApplyAll(l, es), id, s) <==> HasStatus(l, id, s) || Write(id, s) in es)
    decreases |es|
  {
    if es != [] {
      var l1 := Apply(l, es[0]);
      assert es == [es[0]] + es[1..];
      if es[0] == Delete(id) && id in l.seen {
        GoneStaysGone(l1, es[1..], id);
      } else {
        FinalIsWritten(l1, es[1..], id, s);
      }
    }
  }

  // ----- what a pass writes -----

  predicate ByPass(info: map<Id, Info>, e: Effect) {
    (e.Call? || e.Write?) && e.id in info &&
    if info[e.id].payment.amount.Malformed? then e == Write(e.id, Failed)
    else e == Call(e.id) || e == Write(e.id, Dispatching)
  }

  /** A pass fails entries whose amount is malformed, dispatches others, and changes nothing else. */
  lemma {:induction false} PassWrites(c: Config, q: Queue, answers: seq<bool>)
    requires forall id :: id in q.pending ==> id in q.info
    ensures var (q', es) := Pass(c, q, answers);
      && q'.info == q.info && q'.asks == q.asks && q'.awaitingOutcome == q.awaitingOutcome
      && q'.started == q.started && q'.stopped == q.stopped && q'.restored == q.restored
      && (forall e :: e in es ==> ByPass(q.info, e))
    decreases |q.pending|
  {
    var i := FirstReleased(q.pending, q.restored);
    if !q.stopped && q.activeCount < c.maxConcurrent && i < |q.pending| {
      var id := q.pending[i];
      var p := q.info[id].payment;
      if p.amount.Malformed? {
        PassWrites(c, RecordFailed(c, q.(pending := RemoveAt(q.pending, i)), id).0, answers);
      } else if !(AmountToCheck(p) > 0 && (answers == [] || !answers[0])) {
        PassWrites(c, Dispatch(q, i).0, if AmountToCheck(p) > 0 then answers[1..] else answers);
      }
    }
  }

  // ----- what an operation writes -----

  /** The payer or the resolver says the entry is paid. */
  predicate Pays(op: Op, id: Id) {
    || (op.OpEndDispatch? && op.id == id && op.result == PaidOk)
    || (op.OpAnswer? && op.id == id && op.verdict == WasCompleted)
  }

  /** The payer says it is not paid and will not be, or there is nobody to ask whether it was. */
  predicate GivesUp(c: Config, op: Op, id: Id) {
    op.OpEndDispatch? && op.id == id &&
    (op.result == OtherStatus || op.result == Threw || (op.result == StillPending && !c.resolver))
  }

  predicate AnswersUnpaid(op: Op, id: Id) {
    op.OpAnswer? && op.id == id && op.verdict == WasUnpaid
  }

  /** What an operation writes itself, before its pass. */
  function Own(c: Config, q: Queue, op: Op): seq<Effect> {
    match op
    case OpEnqueue(id, p, _) => [Save(id, p)]
    case OpCancel(id) => if id in q.status && q.status[id] == Queued then [Write(id, Cancelled)] else []
    case OpEndDispatch(id, _, _, _) =>
      [Write(id, if Pays(op, id) then Completed else if GivesUp(c, op, id) then Failed else Dispatching)]
    case OpAnswer(id, verdict, _) =>
      if Pays(op, id) then [Write(id, Completed)]
      else if !AnswersUnpaid(op, id) then []
      else [Unpaid(id), Write(id, if id in q.asks && q.asks[id] == Fail then Failed else Queued)]
    case OpPrune(_, order) => if c.storage then Deletes(order) else []
    case _ => []
  }

  /** An 'unpaid' answer to come leads to 'failed'. */
  ghost predicate MayFail(q: Queue, id: Id) {
    (id in q.asks && q.asks[id] == Fail) || (id in q.awaitingOutcome && q.awaitingOutcome[id] == Fail)
  }

  /** Only a dispatch that ends without an answer makes an ask that leads to 'failed'. */
  ghost predicate AsksKept(q: Queue, op: Op, q': Queue) {
    forall id :: MayFail(q', id) ==> MayFail(q, id) || (op.OpEndDispatch? && op.id == id)
  }

  ghost predicate Follows(q': Queue, es: seq<Effect>, own: seq<Effect>, rest: seq<Effect>) {
    es == own + rest && forall e :: e in rest ==> ByPass(q'.info, e)
  }

  lemma EnqueueWrites(c: Config, q: Queue, l: Ledger, op: Op) returns (rest: seq<Effect>)
    requires op.OpEnqueue? && op.id !in l.seen && forall id :: id in q.pending ==> id in q.info
    ensures var (q', es) := Perform(c, q, l, op);
      && Follows(q', es, Own(c, q, op), rest) && q'.info == q.info[op.id := Info(op.payment, q.nextSequence)]
      && AsksKept(q, op, q')
  {
    hide Pass, InsertPending;
    InsertPendingMembers(q.info[op.id := Info(op.payment, q.nextSequence)], q.pending, op.id);
    PassWrites(c, Enqueued(q, op.id, op.payment), op.answers);
    rest := Pass(c, Enqueued(q, op.id, op.payment), op.answers).1;
  }

  lemma StartWrites(c: Config, q: Queue, l: Ledger, op: Op) returns (rest: seq<Effect>)
    requires (op.OpStart? || op.OpPoke?) && forall id :: id in q.pending ==> id in q.info
    ensures var (q', es) := Perform(c, q, l, op); Follows(q', es, Own(c, q, op), rest) && q'.info == q.info && AsksKept(q, op, q')
  {
    hide Pass;
    rest := Perform(c, q, l, op).1;
    assert [] + rest == rest;
    if op.OpPoke? {
      PassWrites(c, q, op.answers);
    } else if !q.stopped && !q.started {
      var left := map id | id in q.interrupted && id in q.active :: Requeue;
      var q1 := Resettle(c, q.(started := true, restored := {}, interrupted := {}), op.refusals);
      PassWrites(c, AskAll(c, q1, left, op.refusals), op.answers);
    }
  }

  lemma EndWrites(c: Config, q: Queue, l: Ledger, op: Op) returns (rest: seq<Effect>)
    requires op.OpEndDispatch? && Enabled(q, l, op) && forall id :: id in q.pending ==> id in q.info
    ensures var (q', es) := Perform(c, q, l, op); Follows(q', es, Own(c, q, op), rest) && q'.info == q.info && AsksKept(q, op, q')
  {
    hide Pass;
    var q1 := Ended(c, q, op.id, op.result, op.refused);
    PassWrites(c, q1, op.answers);
    rest := Pass(c, q1, op.answers).1;
  }

  lemma AnswerWrites(c: Config, q: Queue, l: Ledger, op: Op) returns (rest: seq<Effect>)
    requires op.OpAnswer? && Enabled(q, l, op) && Is(q.status, op.id, Dispatching)
    requires forall id :: id in q.pending ==> id in q.info
    ensures var (q', es) := Perform(c, q, l, op); Follows(q', es, Own(c, q, op), rest) && q'.info == q.info && AsksKept(q, op, q')
  {
    hide Pass, InsertPending;
    rest := [];
    if op.verdict == WasUnpaid && q.asks[op.id] != Fail {
      InsertPendingMembers(q.info, q.pending, op.id);
      var q2 := q.(asks := q.asks - {op.id}, status := q.status[op.id := Queued],
                   pending := InsertPending(q.info, q.pending, op.id));
      PassWrites(c, q2, op.answers);
      rest := Pass(c, q2, op.answers).1;
    }
  }

  /** Every operation writes what is its own, and then what its pass does. */
  lemma OpWrites(c: Config, q: Queue, l: Ledger, op: Op) returns (rest: seq<Effect>)
    requires Good(c, q, l) && Enabled(q, l, op) && forall id :: id in q.pending ==> id in q.info
    ensures var (q', es) := Perform(c, q, l, op);
      && Follows(q', es, Own(c, q, op), rest)
      && (q'.info == if op.OpEnqueue? then q.info[op.id := Info(op.payment, q.nextSequence)] else q.info)
      && AsksKept(q, op, q')
  {
    hide Good, Pass, Enqueue, Start, EndDispatch, Answer;
    rest := [];
    match op
    case OpEnqueue(_, _, _) => rest := EnqueueWrites(c, q, l, op);
    case OpStart(_, _) => rest := StartWrites(c, q, l, op);
    case OpPoke(_) => rest := StartWrites(c, q, l, op);
    case OpEndDispatch(_, _, _, _) => rest := EndWrites(c, q, l, op);
    case OpAnswer(id, _, _) =>
      AskedIsOut(c, q, l, id);
      rest := AnswerWrites(c, q, l, op);
    case OpCancel(id) => QueuedIsActive(c, q, l, id);
    case _ =>
  }

  lemma QueuedIsActive(c: Config, q: Queue, l: Ledger, id: Id)
    requires Good(c, q, l)
    ensures Is(q.status, id, Queued) ==> id in q.active
  {
  }

  // ----- what memory knows of an entry -----

  /** Memory has each entry's payment as saved, and asks that lead to 'failed' are about entries this process sent. */
  ghost predicate Matched(q: Queue, history: seq<Effect>) {
    && (forall id :: id in q.info ==> Save(id, q.info[id].payment) in history)
    && (forall id :: MayFail(q, id) ==> id in LedgerOf(history).sentHere)
  }

  lemma {:induction false} RowSaved(l: Ledger, es: seq<Effect>, id: Id)
    requires id in ApplyAll(l, es).rows
    ensures (id in l.rows && l.rows[id].payment == ApplyAll(l, es).rows[id].payment)
      || Save(id, ApplyAll(l, es).rows[id].payment) in es
    decreases |es|
  {
    if es != [] {
      RowSaved(Apply(l, es[0]), es[1..], id);
    }
  }

  lemma {:induction false} DeletesOnly(ids: seq<Id>)
    ensures forall e :: e in Deletes(ids) ==> e.Delete?
  {
    if ids != [] {
      DeletesOnly(ids[1..]);
    }
  }

  lemma NoBoot(c: Config, q: Queue, op: Op, rest: seq<Effect>)
    requires forall e :: e in rest ==> !e.Boot?
    ensures Boot !in Own(c, q, op) + rest
  {
    if op.OpPrune? {
      DeletesOnly(op.order);
    }
  }

  lemma RunningSent(c: Config, q: Queue, l: Ledger)
    requires Good(c, q, l)
    ensures q.running <= l.sentHere
  {
  }

  lemma SentMatches(c: Config, q: Queue, l: Ledger, op: Op, id: Id)
    requires Good(c, q, l) && (MayFail(q, id) ==> id in l.sentHere)
    requires Enabled(q, l, op) && forall x :: x in q.pending ==> x in q.info
    requires MayFail(Perform(c, q, l, op).0, id)
    ensures id in ApplyAll(l, Perform(c, q, l, op).1).sentHere
  {
    hide Perform, ApplyAll, Own, Good, MayFail;
    var rest := OpWrites(c, q, l, op);
    RunningSent(c, q, l);
    NoBoot(c, q, op, rest);
    StaysSent(l, Perform(c, q, l, op).1, id);
  }

  lemma OpMatched(c: Config, q: Queue, history: seq<Effect>, op: Op)
    requires Good(c, q, LedgerOf(history)) && Matched(q, history)
    requires Enabled(q, LedgerOf(history), op) && forall x :: x in q.pending ==> x in q.info
    ensures var (q', es) := Perform(c, q, LedgerOf(history), op); Matched(q', history + es)
  {
    hide Perform, ApplyAll, Good, Enabled, MayFail;
    var l := LedgerOf(history);
    var (q', es) := Perform(c, q, l, op);
    var rest := OpWrites(c, q, l, op);
    ApplyAllConcat(Ledger(map[], {}, {}, {}), history, es);
    forall id | MayFail(q', id) ensures id in LedgerOf(history + es).sentHere {
      SentMatches(c, q, l, op, id);
    }
    assert op.OpEnqueue? ==> Save(op.id, op.payment) in Own(c, q, op);
  }

  // ----- over runs -----

  lemma {:induction false} FailsInWrites(c: Config, rows: map<Id, Row>, order: seq<Id>)
    requires forall id :: id in order ==> id in rows
    ensures forall e :: e in FailsIn(c, rows, order) <==>
      !c.resolver && e.Write? && e.id in order && rows[e.id].status == Dispatching && e.status == Failed
  {
    if order != [] {
      FailsInWrites(c, rows, order[1..]);
    }
  }

  /** What a boot writes: 'failed' for what it finds dispatching, when there is nobody to ask. */
  lemma RestoreWrites(c: Config, rows: map<Id, Row>, order: seq<Id>, done: seq<Id>)
    requires IsRestoreOrder(rows, order)
    ensures forall e :: e in Restore(c, rows, order, done).1 <==>
      e == Boot || (c.storage && !c.resolver && e.Write? && e.status == Failed && e.id in rows && rows[e.id].status == Dispatching)
  {
    FailsInWrites(c, rows, order);
    hide QueuedIn, FailsIn, LastOf;
  }

  lemma BootMatched(c: Config, w: World, order: seq<Id>, done: seq<Id>)
    requires IsRestoreOrder(LedgerOf(w.history).rows, order)
    ensures var (q, es) := Restore(c, LedgerOf(w.history).rows, order, done); Matched(q, w.history + es)
  {
    var rows := LedgerOf(w.history).rows;
    var (q, es) := Restore(c, rows, order, done);
    forall id | id in q.info ensures Save(id, q.info[id].payment) in w.history + es {
      RowSaved(Ledger(map[], {}, {}, {}), w.history, id);
    }
  }

  lemma {:induction false} NamedMatched(c: Config, ws: seq<World>, moves: seq<Move>, i: nat)
    requires NamedRun(c, ws, moves) && i < |ws| && ws[i].queue.Some?
    ensures Matched(ws[i].queue.value, ws[i].history)
  {
    hide WorldInv, Good, Perform, Enabled, Matched, Restore;
    assert i > 0;
    var w := ws[i - 1];
    assert Moves(c, w, moves[i - 1], ws[i]);
    if moves[i - 1].Does? {
      var op := moves[i - 1].op;
      assert OpStep(c, w, op, ws[i]);
      NamedInv(c, ws, moves, i - 1);
      GoodOf(c, w);
      NamedMatched(c, ws, moves, i - 1);
      OpMatched(c, w.queue.value, w.history, op);
    } else {
      var order, done :| BootStep(c, w, order, done, ws[i]);
      BootMatched(c, w, order, done);
    }
  }

  // ----- which moves write what -----

  /** At least the first `n` effects of the operation happen in this move. */
  predicate Carries(m: Move, n: nat) {
    m.Does? || (m.StopsIn? && m.k >= n)
  }

  /** The process whose history ends here sent the entry. */
  ghost predicate SentByThis(history: seq<Effect>, id: Id) {
    exists a: nat :: LastAt(history, a, Call(id))
  }

  /** The effect came there, and no boot since. */
  ghost predicate LastAt(history: seq<Effect>, a: nat, e: Effect) {
    a < |history| && history[a] == e && Boot !in history[a + 1..]
  }

  predicate PaidAt(m: Move, id: Id) {
    Carries(m, 1) && Pays(m.op, id)
  }

  predicate GivenUpAt(c: Config, m: Move, id: Id) {
    Carries(m, 1) && GivesUp(c, m.op, id)
  }

  /** The resolver says it is not paid, to the process that sent it. */
  ghost predicate RefusedAt(w: World, m: Move, id: Id) {
    Carries(m, 2) && AnswersUnpaid(m.op, id) && SentByThis(w.history, id)
  }

  /** A boot finds it dispatching and has nobody to ask. */
  ghost predicate LostAt(c: Config, w: World, m: Move, id: Id) {
    (m.Boots? || m.StopsBooting?) && c.storage && !c.resolver && HasStatus(LedgerOf(w.history), id, Dispatching)
  }

  ghost predicate CancelledAt(w: World, m: Move, id: Id) {
    Carries(m, 1) && m.op == OpCancel(id) && w.queue.Some? && Is(w.queue.value.status, id, Queued)
  }

  /** What a move adds to the history. */
  ghost function Added(w: World, w': World): seq<Effect>
    requires w.history <= w'.history
  {
    w'.history[|w.history|..]
  }

  lemma OpAdds(c: Config, w: World, m: Move, w': World)
    requires (m.Does? || m.StopsIn?) && Moves(c, w, m, w')
    ensures w.history <= w'.history && w.queue.Some? && Enabled(w.queue.value, LedgerOf(w.history), m.op)
    ensures forall id :: id in w.queue.value.pending ==> id in w.queue.value.info
    ensures var es := Perform(c, w.queue.value, LedgerOf(w.history), m.op).1;
      Added(w, w') == if m.Does? then es else if m.k <= |es| then es[..m.k] else []
    ensures m.StopsIn? ==> m.k <= |Perform(c, w.queue.value, LedgerOf(w.history), m.op).1|
  {
    hide Perform, LedgerOf, Enabled;
  }

  lemma BootAdds(c: Config, w: World, m: Move, w': World)
    requires (m.Boots? || m.StopsBooting?) && Moves(c, w, m, w')
    ensures w.history <= w'.history
    ensures forall e :: e in Added(w, w') ==> e == Boot || (e.Write? && e.status == Failed && LostAt(c, w, m, e.id))
    ensures m.Boots? && c.storage && !c.resolver ==>
      forall id :: HasStatus(LedgerOf(w.history), id, Dispatching) ==> Write(id, Failed) in Added(w, w')
  {
    var order, done :| BootStep(c, w, order, done, w');
    var rows := LedgerOf(w.history).rows;
    RestoreWrites(c, rows, order, done);
    hide Restore, LedgerOf, IsRestoreOrder;
    var es := Restore(c, rows, order, done).1;
    if w'.queue.Some? {
      assert Added(w, w') == es;
    } else {
      var k :| 0 <= k <= |es| && w' == World(None, w.history + es[..k]);
      assert Added(w, w') == es[..k];
    }
  }

  lemma {:induction false} SentHereExact(history: seq<Effect>, id: Id)
    ensures id in LedgerOf(history).sentHere <==> SentByThis(history, id)
  {
    if history != [] {
      var n := |history| - 1;
      var front, e := history[..n], history[n];
      assert history == front + [e];
      ApplyAllConcat(Ledger(map[], {}, {}, {}), front, [e]);
      ApplyOne(LedgerOf(front), e);
      hide LedgerOf;
      SentHereExact(front, id);
      SentByMore(front, e, id);
    }
  }

  lemma SentByMore(front: seq<Effect>, e: Effect, id: Id)
    ensures SentByThis(front + [e], id) <==> e == Call(id) || (e != Boot && SentByThis(front, id))
  {
    var all := front + [e];
    hide LastAt;
    LastIsLast(front, e);
    if a: nat :| LastAt(front, a, Call(id)) {
      LastAtMore(front, e, a, Call(id));
    }
    if a: nat :| LastAt(all, a, Call(id)) {
      LastAtMore(front, e, a, Call(id));
    }
    assert e == Call(id) ==> LastAt(all, |front|, Call(id));
  }

  lemma LastIsLast(front: seq<Effect>, e: Effect)
    ensures LastAt(front + [e], |front|, e)
  {
    assert (front + [e])[|front| + 1..] == [];
  }

  lemma LastAtMore(front: seq<Effect>, e: Effect, a: nat, x: Effect)
    ensures LastAt(front + [e], a, x) <==> (LastAt(front, a, x) && e != Boot) || (a == |front| && e == x)
  {
    if a < |front| {
      assert (front + [e])[a + 1..] == front[a + 1..] + [e];
    } else if a == |front| {
      LastIsLast(front, e);
    }
  }

  /** The entry was saved with an amount that cannot be paid. */
  ghost predicate Broken(history: seq<Effect>, id: Id) {
    exists p :: Save(id, p) in history && p.amount.Malformed?
  }

  /** The effects of a move: all of its operation's, or the first `k`. */
  ghost predicate Takes(m: Move, es: seq<Effect>, added: seq<Effect>) {
    (m.Does? && added == es) || (m.StopsIn? && m.k <= |es| && added == es[..m.k])
  }

  lemma FirstTaken(m: Move, own: seq<Effect>, rest: seq<Effect>, added: seq<Effect>, e: Effect)
    requires Takes(m, own + rest, added) && e !in rest && (e in own ==> own == [e])
    ensures e in added <==> e in own && Carries(m, 1)
  {
    if m.StopsIn? && m.k >= 1 && own == [e] {
      assert added[0] == e;
    }
  }

  lemma SecondTaken(m: Move, own: seq<Effect>, rest: seq<Effect>, added: seq<Effect>, d: Effect, e: Effect)
    requires Takes(m, own + rest, added) && e !in rest && own == [d, e] && d != e
    ensures e in added <==> Carries(m, 2)
  {
    if m.StopsIn? && m.k >= 2 {
      assert added[1] == e;
    }
  }

  /** A move of an operation: what it adds, split into the operation's own effects and its pass. */
  lemma OpMove(c: Config, ws: seq<World>, moves: seq<Move>, j: nat) returns (rest: seq<Effect>)
    requires NamedRun(c, ws, moves) && j < |moves| && (moves[j].Does? || moves[j].StopsIn?)
    ensures ws[j].history <= ws[j + 1].history && ws[j].queue.Some?
    ensures Good(c, ws[j].queue.value, LedgerOf(ws[j].history))
    ensures Enabled(ws[j].queue.value, LedgerOf(ws[j].history), moves[j].op)
    ensures Takes(moves[j], Own(c, ws[j].queue.value, moves[j].op) + rest, Added(ws[j], ws[j + 1]))
    ensures forall e :: e in rest ==> e.Call? || e.Write?
    ensures forall id, t :: Write(id, t) in rest ==>
      t == Dispatching || (t == Failed && Broken(ws[j].history + Own(c, ws[j].queue.value, moves[j].op), id))
  {
    var w, w', m := ws[j], ws[j + 1], moves[j];
    assert Moves(c, w, m, w');
    hide Moves, Perform, LedgerOf, WorldInv, Good, Enabled, Own, Matched;
    OpAdds(c, w, m, w');
    NamedInv(c, ws, moves, j);
    GoodOf(c, w);
    NamedMatched(c, ws, moves, j);
    var q := w.queue.value;
    rest := OpWrites(c, q, LedgerOf(w.history), m.op);
    var q' := Perform(c, q, LedgerOf(w.history), m.op).0;
    hide ByPass, Broken;
    forall id, t | Write(id, t) in rest
      ensures t == Dispatching || (t == Failed && Broken(w.history + Own(c, q, m.op), id)) {
      PassedBroken(c, q, w.history, m.op, q', id, t);
    }
  }

  lemma PassedBroken(c: Config, q: Queue, history: seq<Effect>, op: Op, q': Queue, id: Id, t: Status)
    requires Matched(q, history) && ByPass(q'.info, Write(id, t))
    requires q'.info == if op.OpEnqueue? then q.info[op.id := Info(op.payment, q.nextSequence)] else q.info
    ensures t == Dispatching || (t == Failed && Broken(history + Own(c, q, op), id))
  {
    var p := q'.info[id].payment;
    assert Save(id, p) in history + Own(c, q, op);
  }

  /** A move writes 'completed' exactly if the payer or the resolver says so in it. */
  lemma MoveCompletes(c: Config, ws: seq<World>, moves: seq<Move>, j: nat, id: Id)
    requires NamedRun(c, ws, moves) && j < |moves|
    ensures ws[j].history <= ws[j + 1].history
    ensures Write(id, Completed) in Added(ws[j], ws[j + 1]) <==> PaidAt(moves[j], id)
  {
    hide Moves, LedgerOf, Good, Enabled, LostAt, Takes, Broken, Own;
    var m := moves[j];
    assert Moves(c, ws[j], m, ws[j + 1]);
    if m.Boots? || m.StopsBooting? {
      BootAdds(c, ws[j], m, ws[j + 1]);
    } else {
      var rest := OpMove(c, ws, moves, j);
      var q := ws[j].queue.value;
      OwnFinal(c, q, m.op, id);
      FirstTaken(m, Own(c, q, m.op), rest, Added(ws[j], ws[j + 1]), Write(id, Completed));
    }
  }

  lemma MoveCancels(c: Config, ws: seq<World>, moves: seq<Move>, j: nat, id: Id)
    requires NamedRun(c, ws, moves) && j < |moves|
    ensures ws[j].history <= ws[j + 1].history
    ensures Write(id, Cancelled) in Added(ws[j], ws[j + 1]) <==> CancelledAt(ws[j], moves[j], id)
  {
    hide Moves, LedgerOf, Good, Enabled, LostAt, Takes, Broken, Own;
    var m := moves[j];
    assert Moves(c, ws[j], m, ws[j + 1]);
    if m.Boots? || m.StopsBooting? {
      BootAdds(c, ws[j], m, ws[j + 1]);
    } else {
      var rest := OpMove(c, ws, moves, j);
      var q := ws[j].queue.value;
      OwnFinal(c, q, m.op, id);
      FirstTaken(m, Own(c, q, m.op), rest, Added(ws[j], ws[j + 1]), Write(id, Cancelled));
    }
  }

  lemma OwnFinal(c: Config, q: Queue, op: Op, id: Id)
    ensures Write(id, Completed) in Own(c, q, op) <==> Pays(op, id)
    ensures Pays(op, id) ==> Own(c, q, op) == [Write(id, Completed)]
    ensures Write(id, Cancelled) in Own(c, q, op) <==> op == OpCancel(id) && Is(q.status, id, Queued)
    ensures op == OpCancel(id) && Is(q.status, id, Queued) ==> Own(c, q, op) == [Write(id, Cancelled)]
  {
    if op.OpPrune? {
      DeletesOnly(op.order);
    }
  }

  /** An 'unpaid' answer leads to 'failed' exactly in the process that sent the entry. */
  lemma FailsIfSentHere(c: Config, ws: seq<World>, moves: seq<Move>, j: nat, id: Id)
    requires NamedRun(c, ws, moves) && j < |ws| && ws[j].queue.Some? && id in ws[j].queue.value.asks
    ensures ws[j].queue.value.asks[id] == Fail <==> SentByThis(ws[j].history, id)
  {
    hide Moves, WorldInv, LedgerOf, SentByThis;
    NamedInv(c, ws, moves, j);
    GoodOf(c, ws[j]);
    NamedMatched(c, ws, moves, j);
    SentHereExact(ws[j].history, id);
    assert MayFail(ws[j].queue.value, id) || ws[j].queue.value.asks[id] != Fail;
    hide Valid, Agrees, Sound;
  }

  lemma BrokenStays(h: seq<Effect>, more: seq<Effect>, id: Id)
    ensures Broken(h, id) ==> Broken(h + more, id)
    ensures (forall e :: e in more ==> !e.Save?) ==> (Broken(h + more, id) ==> Broken(h, id))
  {
    if p :| Save(id, p) in h && p.amount.Malformed? {
      assert Save(id, p) in h + more;
    }
  }

  lemma EnqueueFails(m: Move, own: seq<Effect>, rest: seq<Effect>, w: World, w': World, id: Id)
    requires w.history <= w'.history && Takes(m, own + rest, Added(w, w')) && |own| == 1 && own[0].Save?
    requires Write(id, Failed) in rest ==> Broken(w.history + own, id)
    ensures Write(id, Failed) in Added(w, w') ==> Broken(w'.history, id)
  {
    hide Broken, Added;
    var added := Added(w, w');
    if Write(id, Failed) in added {
      SaveTaken(m, own, rest, added, Write(id, Failed));
      assert w'.history == w.history + added by { AddedAll(w, w'); }
      assert w.history + (own + added[1..]) == (w.history + own) + added[1..];
      BrokenStays(w.history + own, added[1..], id);
    }
  }

  lemma AddedAll(w: World, w': World)
    requires w.history <= w'.history
    ensures w'.history == w.history + Added(w, w')
  {
  }

  lemma SaveTaken(m: Move, own: seq<Effect>, rest: seq<Effect>, added: seq<Effect>, e: Effect)
    requires Takes(m, own + rest, added) && |own| == 1 && own[0] != e && e in added
    ensures e in rest && added == own + added[1..]
  {
    assert added[0] == own[0];
  }

  /** What each operation of its own writes 'failed' for. */
  lemma OwnFails(c: Config, q: Queue, op: Op, id: Id)
    ensures !op.OpAnswer? ==> (Write(id, Failed) in Own(c, q, op) <==> GivesUp(c, op, id))
    ensures GivesUp(c, op, id) ==> Own(c, q, op) == [Write(id, Failed)]
    ensures op.OpAnswer? ==> (Write(id, Failed) in Own(c, q, op) <==>
      AnswersUnpaid(op, id) && id in q.asks && q.asks[id] == Fail)
    ensures op.OpAnswer? && Write(id, Failed) in Own(c, q, op) ==> Own(c, q, op) == [Unpaid(id), Write(id, Failed)]
    ensures !op.OpEnqueue? ==> forall e :: e in Own(c, q, op) ==> !e.Save?
    ensures op.OpEnqueue? ==> Own(c, q, op) == [Save(op.id, op.payment)]
  {
    if op.OpPrune? {
      DeletesOnly(op.order);
    }
  }

  lemma OpMoveFails(c: Config, ws: seq<World>, moves: seq<Move>, j: nat, id: Id)
    requires NamedRun(c, ws, moves) && j < |moves| && (moves[j].Does? || moves[j].StopsIn?)
    ensures ws[j].history <= ws[j + 1].history
    ensures !Broken(ws[j + 1].history, id) ==>
      (Write(id, Failed) in Added(ws[j], ws[j + 1]) <==> GivenUpAt(c, moves[j], id) || RefusedAt(ws[j], moves[j], id))
  {
    hide Moves, LedgerOf, Good, Takes, Broken, Own, SentByThis;
    var m, w, w' := moves[j], ws[j], ws[j + 1];
    var rest := OpMove(c, ws, moves, j);
    if !Broken(w'.history, id) {
      var q := w.queue.value;
      var own := Own(c, q, m.op);
      OwnFails(c, q, m.op, id);
      if m.op.OpEnqueue? {
        EnqueueFails(m, own, rest, w, w', id);
      } else {
        BrokenStays(w.history, own, id);
        BrokenStays(w.history, Added(w, w'), id);
        assert w'.history == w.history + Added(w, w');
        assert Write(id, Failed) !in rest;
        if m.op.OpAnswer? && m.op.id == id {
          FailsIfSentHere(c, ws, moves, j, id);
        }
        if m.op.OpAnswer? && Write(id, Failed) in own {
          SecondTaken(m, own, rest, Added(w, w'), Unpaid(id), Write(id, Failed));
        } else {
          FirstTaken(m, own, rest, Added(w, w'), Write(id, Failed));
        }
      }
    }
  }

  // ----- how an entry ends -----

  ghost predicate AddsAt(ws: seq<World>, j: nat, e: Effect) {
    j + 1 < |ws| && ws[j].history <= ws[j + 1].history && e in Added(ws[j], ws[j + 1])
  }

  lemma {:induction false} HistoryIsAdded(c: Config, ws: seq<World>, moves: seq<Move>, i: nat, e: Effect)
    requires NamedRun(c, ws, moves) && i < |ws|
    ensures e in ws[i].history <==> exists j: nat :: j < i && AddsAt(ws, j, e)
  {
    hide Moves, Added;
    if i > 0 {
      HistoryIsAdded(c, ws, moves, i - 1, e);
      MoveCompletes(c, ws, moves, i - 1, 0);
      AddedAll(ws[i - 1], ws[i]);
      assert e in Added(ws[i - 1], ws[i]) ==> AddsAt(ws, i - 1, e);
      if j: nat :| j < i && AddsAt(ws, j, e) {
        assert j < i - 1 ==> e in ws[i - 1].history;
      }
    }
  }

  /** An entry's row, and memory if it knows the entry, have a final status exactly if it was ever written. */
  lemma FinalExactly(c: Config, ws: seq<World>, moves: seq<Move>, i: nat, id: Id, s: Status)
    requires NamedRun(c, ws, moves) && i < |ws| && id in LedgerOf(ws[i].history).rows && !IsActive(s)
    ensures HasStatus(LedgerOf(ws[i].history), id, s) <==> Write(id, s) in ws[i].history
    ensures ws[i].queue.Some? && id in ws[i].queue.value.status ==>
      (Is(ws[i].queue.value.status, id, s) <==> Write(id, s) in ws[i].history)
  {
    hide Moves, Valid, SentOnce, Sound;
    NamedInv(c, ws, moves, i);
    FinalIsWritten(Ledger(map[], {}, {}, {}), ws[i].history, id, s);
  }

  /** Over every run: completed, in the row and in memory, exactly if the payer or the resolver said it is paid. */
  lemma CompletedExactly(c: Config, ws: seq<World>, moves: seq<Move>, i: nat, id: Id)
    requires NamedRun(c, ws, moves) && i < |ws| && id in LedgerOf(ws[i].history).rows
    ensures HasStatus(LedgerOf(ws[i].history), id, Completed) <==> exists j: nat :: j < i && PaidAt(moves[j], id)
    ensures ws[i].queue.Some? && id in ws[i].queue.value.status ==>
      (Is(ws[i].queue.value.status, id, Completed) <==> exists j: nat :: j < i && PaidAt(moves[j], id))
  {
    hide Moves, LedgerOf, PaidAt;
    FinalExactly(c, ws, moves, i, id, Completed);
    HistoryIsAdded(c, ws, moves, i, Write(id, Completed));
    forall j: nat | j < i ensures AddsAt(ws, j, Write(id, Completed)) <==> PaidAt(moves[j], id) {
      MoveCompletes(c, ws, moves, j, id);
    }
  }

  /** Cancelled exactly if a cancel found it queued. */
  lemma CancelledExactly(c: Config, ws: seq<World>, moves: seq<Move>, i: nat, id: Id)
    requires NamedRun(c, ws, moves) && i < |ws| && id in LedgerOf(ws[i].history).rows
    ensures HasStatus(LedgerOf(ws[i].history), id, Cancelled) <==> exists j: nat :: j < i && CancelledAt(ws[j], moves[j], id)
    ensures ws[i].queue.Some? && id in ws[i].queue.value.status ==>
      (Is(ws[i].queue.value.status, id, Cancelled) <==> exists j: nat :: j < i && CancelledAt(ws[j], moves[j], id))
  {
    hide Moves, LedgerOf, CancelledAt;
    FinalExactly(c, ws, moves, i, id, Cancelled);
    HistoryIsAdded(c, ws, moves, i, Write(id, Cancelled));
    forall j: nat | j < i ensures AddsAt(ws, j, Write(id, Cancelled)) <==> CancelledAt(ws[j], moves[j], id) {
      MoveCancels(c, ws, moves, j, id);
    }
  }

  // ----- failed -----

  /** A move after which the entry is to be recorded failed. */
  ghost predicate FailsAt(c: Config, w: World, m: Move, id: Id) {
    GivenUpAt(c, m, id) || RefusedAt(w, m, id) || LostAt(c, w, m, id)
  }

  lemma BrokenLater(c: Config, ws: seq<World>, moves: seq<Move>, j: nat, i: nat, id: Id)
    requires NamedRun(c, ws, moves) && j <= i < |ws| && Broken(ws[j].history, id)
    ensures Broken(ws[i].history, id)
  {
    hide Moves;
    var p :| Save(id, p) in ws[j].history && p.amount.Malformed?;
    HistoryIsAdded(c, ws, moves, j, Save(id, p));
    HistoryIsAdded(c, ws, moves, i, Save(id, p));
  }

  /** An entry lost by a boot is recorded failed once a process is up again. */
  lemma {:induction false} LostFails(c: Config, ws: seq<World>, moves: seq<Move>, j: nat, i: nat, id: Id)
    requires NamedRun(c, ws, moves) && j < i < |ws| && LostAt(c, ws[j], moves[j], id)
    ensures Write(id, Failed) in ws[i].history || (ws[i].queue.None? && HasStatus(LedgerOf(ws[i].history), id, Dispatching))
    decreases i
  {
    hide Perform, Restore;
    var w, m := ws[i - 1], moves[i - 1];
    if j < i - 1 {
      LostFails(c, ws, moves, j, i - 1, id);
    }
    MoveCompletes(c, ws, moves, i - 1, id);
    assert Moves(c, w, m, ws[i]);
    assert ws[i].history == w.history + Added(w, ws[i]);
    if Write(id, Failed) !in w.history {
      assert m.Boots? || m.StopsBooting?;
      BootAdds(c, w, m, ws[i]);
      if Write(id, Failed) !in ws[i].history {
        StillOut(w.history, Added(w, ws[i]), id);
      }
    }
  }

  lemma StillOut(h: seq<Effect>, more: seq<Effect>, id: Id)
    requires HasStatus(LedgerOf(h), id, Dispatching) && Write(id, Failed) !in more
    requires forall e :: e in more ==> e == Boot || (e.Write? && e.status == Failed)
    ensures HasStatus(LedgerOf(h + more), id, Dispatching)
  {
    ApplyAllConcat(Ledger(map[], {}, {}, {}), h, more);
    Untouched(LedgerOf(h), more, id);
  }

  lemma {:induction false} Untouched(l: Ledger, es: seq<Effect>, id: Id)
    requires id in l.rows && forall e :: e in es ==> e == Boot || (e.Write? && e.id != id)
    ensures id in ApplyAll(l, es).rows && ApplyAll(l, es).rows[id] == l.rows[id]
    decreases |es|
  {
    if es != [] {
      Untouched(Apply(l, es[0]), es[1..], id);
    }
  }

  /**
   * While a process is up, an entry with an amount that can be paid is failed, in
   * its row and in memory, exactly if the payer gave up on it, the resolver said
   * 'unpaid' to the process that sent it, or a boot found it out with nobody to ask.
   */
  lemma FailedExactly(c: Config, ws: seq<World>, moves: seq<Move>, i: nat, id: Id)
    requires NamedRun(c, ws, moves) && i < |ws| && id in LedgerOf(ws[i].history).rows && ws[i].queue.Some?
    requires !Broken(ws[i].history, id)
    ensures HasStatus(LedgerOf(ws[i].history), id, Failed) <==> exists j: nat :: j < i && FailsAt(c, ws[j], moves[j], id)
    ensures id in ws[i].queue.value.status ==>
      (Is(ws[i].queue.value.status, id, Failed) <==> exists j: nat :: j < i && FailsAt(c, ws[j], moves[j], id))
  {
    hide Moves, LedgerOf, GivenUpAt, RefusedAt, Broken;
    FinalExactly(c, ws, moves, i, id, Failed);
    HistoryIsAdded(c, ws, moves, i, Write(id, Failed));
    forall j: nat | j < i
      ensures AddsAt(ws, j, Write(id, Failed)) ==> FailsAt(c, ws[j], moves[j], id)
      ensures FailsAt(c, ws[j], moves[j], id) ==> Write(id, Failed) in ws[i].history
    {
      FailsAtExact(c, ws, moves, j, i, id);
    }
  }

  lemma FailsAtExact(c: Config, ws: seq<World>, moves: seq<Move>, j: nat, i: nat, id: Id)
    requires NamedRun(c, ws, moves) && j < i < |ws| && ws[i].queue.Some? && !Broken(ws[i].history, id)
    ensures AddsAt(ws, j, Write(id, Failed)) ==> FailsAt(c, ws[j], moves[j], id)
    ensures FailsAt(c, ws[j], moves[j], id) ==> Write(id, Failed) in ws[i].history
  {
    hide Moves, LedgerOf, Broken;
    if moves[j].Boots? || moves[j].StopsBooting? {
      assert Moves(c, ws[j], moves[j], ws[j + 1]);
      BootAdds(c, ws[j], moves[j], ws[j + 1]);
      if LostAt(c, ws[j], moves[j], id) {
        LostFails(c, ws, moves, j, i, id);
      }
    } else {
      OpMoveFails(c, ws, moves, j, id);
      if Broken(ws[j + 1].history, id) {
        BrokenLater(c, ws, moves, j + 1, i, id);
      }
      HistoryIsAdded(c, ws, moves, i, Write(id, Failed));
      assert Write(id, Failed) in Added(ws[j], ws[j + 1]) ==> AddsAt(ws, j, Write(id, Failed));
    }
  }

  // ----- what a pass leaves behind -----

  /** There is an amount to ask the wallet about: the entry's own, or else its invoice's. */
  predicate Sized(p: Payment) {
    if p.amount.Whole? then p.amount.sats > 0 else p.invoiceSats > 0
  }

  /** How many of the calls made are for entries the wallet was asked about. */
  function SizedCalls(info: map<Id, Info>, es: seq<Effect>): nat {
    if es == [] then 0
    else (if es[0].Call? && es[0].id in info && Sized(info[es[0].id].payment) then 1 else 0) + SizedCalls(info, es[1..])
  }

  /** How many calls there are. */
  function CallCount(es: seq<Effect>): nat {
    if es == [] then 0 else (if es[0].Call? then 1 else 0) + CallCount(es[1..])
  }

  lemma {:induction false} CountsAdd(info: map<Id, Info>, xs: seq<Effect>, ys: seq<Effect>)
    ensures SizedCalls(info, xs + ys) == SizedCalls(info, xs) + SizedCalls(info, ys)
    ensures CallCount(xs + ys) == CallCount(xs) + CallCount(ys)
  {
    if xs == [] {
      assert xs + ys == ys;
    } else {
      assert (xs + ys)[1..] == xs[1..] + ys;
      CountsAdd(info, xs[1..], ys);
    }
  }

  /** The first released entry is one the wallet cannot send now. */
  ghost predicate Blocked(q: Queue, answers: seq<bool>, asked: nat)
    requires forall id :: id in q.pending ==> id in q.info
  {
    exists i :: 0 <= i < |q.pending| && q.pending[i] !in q.restored && (forall j :: 0 <= j < i ==> q.pending[j] in q.restored)
      && Sized(q.info[q.pending[i]].payment) && (asked < |answers| ==> !answers[asked])
  }

  /** From `q`, with the wallet's `answers`, a pass that has `es` done and ends in `q'` has gone on while it might. */
  ghost predicate WentOn(c: Config, q: Queue, answers: seq<bool>, q': Queue, es: seq<Effect>) {
    var asked := SizedCalls(q.info, es);
    && (forall id :: id in q'.pending ==> id in q'.info) && q'.info == q.info && q'.restored == q.restored
    && q'.activeCount == q.activeCount + CallCount(es)
    && asked <= |answers| && (forall k :: 0 <= k < asked ==> answers[k])
    && (|| q.stopped || q'.activeCount >= c.maxConcurrent
        || (forall id :: id in q'.pending ==> id in q.restored) || Blocked(q', answers, asked))
  }

  lemma WentOnFailed(c: Config, q: Queue, q1: Queue, answers: seq<bool>, q': Queue, es: seq<Effect>, id: Id)
    requires WentOn(c, q1, answers, q', es)
    requires q1.info == q.info && q1.restored == q.restored && q1.activeCount == q.activeCount && q1.stopped == q.stopped
    ensures WentOn(c, q, answers, q', [Write(id, Failed)] + es)
  {
    hide Blocked;
    CountsAdd(q.info, [Write(id, Failed)], es);
    assert SizedCalls(q.info, [Write(id, Failed)]) == 0 && CallCount([Write(id, Failed)]) == 0;
    hide SizedCalls, CallCount;
  }

  lemma WentOnSent(c: Config, q: Queue, q1: Queue, answers: seq<bool>, q': Queue, es: seq<Effect>, id: Id)
    requires id in q.info && (Sized(q.info[id].payment) ==> answers != [] && answers[0])
    requires WentOn(c, q1, if Sized(q.info[id].payment) then answers[1..] else answers, q', es)
    requires q1.info == q.info && q1.restored == q.restored && q1.activeCount == q.activeCount + 1 && q1.stopped == q.stopped
    ensures WentOn(c, q, answers, q', [Write(id, Dispatching), Call(id)] + es)
  {
    CountsAdd(q.info, [Write(id, Dispatching), Call(id)], es);
    CallsOne(q.info, id);
    hide SizedCalls, CallCount, Sized;
    var sized, asked := Sized(q.info[id].payment), SizedCalls(q.info, es);
    if sized {
      assert forall k :: 0 <= k < asked ==> answers[1..][k] == answers[k + 1];
      BlockedNext(q', answers, asked);
    }
  }

  lemma BlockedNext(q: Queue, answers: seq<bool>, asked: nat)
    requires (forall id :: id in q.pending ==> id in q.info) && answers != []
    ensures Blocked(q, answers[1..], asked) ==> Blocked(q, answers, asked + 1)
  {
    hide Sized;
    assert asked < |answers| - 1 ==> answers[1..][asked] == answers[asked + 1];
  }

  lemma CallsOne(info: map<Id, Info>, id: Id)
    requires id in info
    ensures SizedCalls(info, [Write(id, Dispatching), Call(id)]) == if Sized(info[id].payment) then 1 else 0
    ensures CallCount([Write(id, Dispatching), Call(id)]) == 1
  {
    assert [Write(id, Dispatching), Call(id)][1..] == [Call(id)] && [Call(id)][1..] == [];
    assert SizedCalls(info, [Call(id)]) == (if Sized(info[id].payment) then 1 else 0) + SizedCalls(info, []);
    assert CallCount([Call(id)]) == 1 + CallCount([]);
  }

  /**
   * A pass goes on while it may: it ends with the queue stopped, every slot
   * taken, nothing released left, or the least released entry refused by the
   * wallet. Each answer before that was a yes, and each call took a slot.
   */
  lemma {:induction false} PassGoesOn(c: Config, q: Queue, answers: seq<bool>)
    requires forall id :: id in q.pending ==> id in q.info
    ensures var (q', es) := Pass(c, q, answers); WentOn(c, q, answers, q', es)
    decreases |q.pending|
  {
    var i := FirstReleased(q.pending, q.restored);
    if q.stopped || q.activeCount >= c.maxConcurrent || i == |q.pending| {
      PassStays(c, q, answers);
    } else {
      var id := q.pending[i];
      var p := q.info[id].payment;
      assert Sized(p) <==> AmountToCheck(p) > 0;
      if p.amount.Malformed? {
        var q1 := RecordFailed(c, q.(pending := RemoveAt(q.pending, i)), id).0;
        PassGoesOn(c, q1, answers);
        hide WentOn;
        WentOnFailed(c, q, q1, answers, Pass(c, q1, answers).0, Pass(c, q1, answers).1, id);
      } else if Sized(p) && (answers == [] || !answers[0]) {
        hide Sized;
        assert Blocked(q, answers, 0);
      } else {
        var q1 := Dispatch(q, i).0;
        var rest := if Sized(p) then answers[1..] else answers;
        PassGoesOn(c, q1, rest);
        hide WentOn;
        WentOnSent(c, q, q1, answers, Pass(c, q1, rest).0, Pass(c, q1, rest).1, id);
      }
    }
  }

  lemma PassStays(c: Config, q: Queue, answers: seq<bool>)
    requires forall id :: id in q.pending ==> id in q.info
    requires q.stopped || q.activeCount >= c.maxConcurrent || FirstReleased(q.pending, q.restored) == |q.pending|
    ensures WentOn(c, q, answers, q, [])
  {
    hide Blocked;
    if FirstReleased(q.pending, q.restored) == |q.pending| {
      forall id | id in q.pending ensures id in q.restored {
        var k :| 0 <= k < |q.pending| && q.pending[k] == id;
      }
    }
  }

  /** The operation comes to its pass. */
  predicate Passes(q: Queue, op: Op) {
    match op
    case OpEnqueue(_, _, _) => true
    case OpStart(_, _) => !q.started
    case OpPoke(_) => q.started
    case OpEndDispatch(_, _, _, _) => true
    case OpAnswer(id, verdict, _) => verdict == WasUnpaid && id in q.asks && q.asks[id] == Requeue
    case _ => false
  }

  function AnswersOf(op: Op): seq<bool> {
    match op
    case OpEnqueue(_, _, answers) => answers
    case OpStart(_, answers) => answers
    case OpPoke(answers) => answers
    case OpEndDispatch(_, _, _, answers) => answers
    case OpAnswer(_, _, answers) => answers
    case _ => []
  }

  /** No released entry waits for a free slot, but for one the wallet refused after saying yes to those before it. */
  ghost predicate Settled(c: Config, q: Queue, answers: seq<bool>)
    requires forall id :: id in q.pending ==> id in q.info
  {
    || q.stopped || q.activeCount >= c.maxConcurrent
    || (forall id :: id in q.pending ==> id in q.restored)
    || exists asked: nat :: asked <= |answers| && (forall k :: 0 <= k < asked ==> answers[k]) && Blocked(q, answers, asked)
  }

  lemma PassSettles(c: Config, q: Queue, answers: seq<bool>)
    requires forall id :: id in q.pending ==> id in q.info
    ensures var q' := Pass(c, q, answers).0; (forall id :: id in q'.pending ==> id in q'.info) && Settled(c, q', answers)
  {
    PassGoesOn(c, q, answers);
    PassWrites(c, q, answers);
    hide Pass, SizedCalls, CallCount, Blocked, ByPass;
  }

  /** Every operation that frees a slot, or adds or releases an entry, dispatches all that may go. */
  lemma OpSettles(c: Config, q: Queue, l: Ledger, op: Op)
    requires Good(c, q, l) && Enabled(q, l, op) && Passes(q, op) && forall id :: id in q.pending ==> id in q.info
    ensures var q' := Perform(c, q, l, op).0;
      (forall id :: id in q'.pending ==> id in q'.info) && Settled(c, q', AnswersOf(op))
  {
    hide Good, Pass, InsertPending, Settled, Blocked;
    match op
    case OpEnqueue(x, p, answers) =>
      InsertPendingMembers(q.info[x := Info(p, q.nextSequence)], q.pending, x);
      PassSettles(c, Enqueued(q, x, p), answers);
    case OpStart(refusals, answers) => StartSettles(c, q, refusals, answers);
    case OpPoke(answers) => PokeSettles(c, q, answers);
    case OpEndDispatch(x, result, refused, answers) => PassSettles(c, Ended(c, q, x, result, refused), answers);
    case OpAnswer(x, verdict, answers) =>
      AskedIsOut(c, q, l, x);
      InsertPendingMembers(q.info, q.pending, x);
      PassSettles(c, q.(asks := q.asks - {x}, status := q.status[x := Queued],
                        pending := InsertPending(q.info, q.pending, x)), answers);
  }

  lemma StartSettles(c: Config, q: Queue, refusals: set<Id>, answers: seq<bool>)
    requires !q.started && forall id :: id in q.pending ==> id in q.info
    ensures var q' := Start(c, q, refusals, answers).0;
      (forall id :: id in q'.pending ==> id in q'.info) && Settled(c, q', answers)
  {
    hide Pass, Blocked;
    if !q.stopped {
      hide Settled;
      var left := map id | id in q.interrupted && id in q.active :: Requeue;
      var q1 := Resettle(c, q.(started := true, restored := {}, interrupted := {}), refusals);
      PassSettles(c, AskAll(c, q1, left, refusals), answers);
    }
  }

  lemma PokeSettles(c: Config, q: Queue, answers: seq<bool>)
    requires q.started && forall id :: id in q.pending ==> id in q.info
    ensures var q' := Poke(c, q, answers).0;
      (forall id :: id in q'.pending ==> id in q'.info) && Settled(c, q', answers)
  {
    hide Pass, Blocked;
    if !q.stopped {
      hide Settled;
      PassSettles(c, q, answers);
    }
  }

  // ----- where an entry that is out waits -----

  datatype Waiting = NoAsk | Asked(onUnpaid: OnUnpaid) | Again(onUnpaid: OnUnpaid)

  /** An ask is out for the entry, or is to be made again. */
  function WaitingOf(q: Queue, id: Id): Waiting {
    if id in q.asks then Asked(q.asks[id]) else if id in q.awaitingOutcome then Again(q.awaitingOutcome[id]) else NoAsk
  }

  /** An ask made now, by whether the resolver refuses it at once. */
  function Made(onUnpaid: OnUnpaid, refused: bool): Waiting {
    if refused then Again(onUnpaid) else Asked(onUnpaid)
  }

  /** Where an entry waits after an operation. */
  function WaitsAfter(c: Config, q: Queue, op: Op, id: Id): Waiting {
    var now := WaitingOf(q, id);
    match op
    case OpStart(refusals, _) =>
      if q.stopped || q.started then now
      else if id in q.interrupted then Made(Requeue, id in refusals)
      else if now.Again? then Made(now.onUnpaid, id in refusals) else now
    case OpResettle(refusals) => if !q.stopped && now.Again? then Made(now.onUnpaid, id in refusals) else now
    case OpEndDispatch(x, result, refused, _) =>
      if x == id && result == StillPending && c.resolver then Made(Fail, refused) else now
    case OpAnswer(x, _, _) => if x == id then NoAsk else now
    case OpRefuse(x) => if x == id && now.Asked? then Again(now.onUnpaid) else now
    case _ => now
  }

  lemma OwnedOnce(c: Config, q: Queue, l: Ledger, id: Id)
    requires Good(c, q, l)
    ensures id in q.running || id in q.interrupted ==> id !in q.asks && id !in q.awaitingOutcome
    ensures id in q.asks ==> id !in q.awaitingOutcome
    ensures id in q.interrupted ==> id in q.active && c.resolver
    ensures id in q.awaitingOutcome ==> c.resolver
  {
    AskedIsOut(c, q, l, id);
    hide Known, InDispatchOrder, PendingExact, Agrees, Sound, SentOnce, HistoryOk;
  }

  lemma NoneAsked(c: Config, q: Queue, l: Ledger)
    requires Good(c, q, l)
    ensures !c.resolver ==> q.awaitingOutcome == map[]
  {
  }

  lemma AskAllWaits(c: Config, q: Queue, asks: map<Id, OnUnpaid>, refusals: set<Id>, id: Id)
    requires c.resolver && (id in asks ==> id !in q.asks)
    ensures WaitingOf(AskAll(c, q, asks, refusals), id) ==
      if id in asks then Made(asks[id], id in refusals) else WaitingOf(q, id)
  {
  }

  /** A pass moves nobody who waits for the resolver. */
  lemma PassWaits(c: Config, q: Queue, answers: seq<bool>, id: Id)
    requires forall x :: x in q.pending ==> x in q.info
    ensures WaitingOf(Pass(c, q, answers).0, id) == WaitingOf(q, id)
  {
    PassWrites(c, q, answers);
    hide Pass, ByPass;
  }

  lemma ResettleWaits(c: Config, q: Queue, refusals: set<Id>, id: Id)
    requires id in q.asks ==> id !in q.awaitingOutcome
    requires !c.resolver ==> q.awaitingOutcome == map[]
    ensures WaitingOf(Resettle(c, q, refusals), id) ==
      if !q.stopped && WaitingOf(q, id).Again? then Made(WaitingOf(q, id).onUnpaid, id in refusals) else WaitingOf(q, id)
  {
    if !q.stopped && c.resolver {
      hide AskAll;
      AskAllWaits(c, q.(awaitingOutcome := map[]), q.awaitingOutcome, refusals, id);
    }
  }

  lemma StartWaits(c: Config, q: Queue, l: Ledger, refusals: set<Id>, answers: seq<bool>, id: Id)
    requires Good(c, q, l) && forall x :: x in q.pending ==> x in q.info
    ensures WaitingOf(Start(c, q, refusals, answers).0, id) == WaitsAfter(c, q, OpStart(refusals, answers), id)
  {
    hide Good, Pass, AskAll, Resettle, WaitingOf;
    OwnedOnce(c, q, l, id);
    NoneAsked(c, q, l);
    if !q.stopped && !q.started {
      var left := map x | x in q.interrupted && x in q.active :: Requeue;
      var q0 := q.(started := true, restored := {}, interrupted := {});
      var q1 := Resettle(c, q0, refusals);
      ResettleWaits(c, q0, refusals, id);
      ResettleFrame(c, q0, refusals, id);
      AskAllFrame(c, q1, left, refusals);
      PassWaits(c, AskAll(c, q1, left, refusals), answers, id);
      assert WaitingOf(q0, id) == WaitingOf(q, id) by { WaitingFrame(q, q0, id); }
      if c.resolver {
        AskAllWaits(c, q1, left, refusals, id);
      }
    }
  }

  lemma WaitingFrame(q: Queue, q': Queue, id: Id)
    requires q'.asks == q.asks && q'.awaitingOutcome == q.awaitingOutcome
    ensures WaitingOf(q', id) == WaitingOf(q, id)
  {
  }

  lemma AskAllFrame(c: Config, q: Queue, asks: map<Id, OnUnpaid>, refusals: set<Id>)
    ensures var q' := AskAll(c, q, asks, refusals); q'.info == q.info && q'.pending == q.pending && (!c.resolver ==> q' == q)
  {
  }

  lemma ResettleFrame(c: Config, q: Queue, refusals: set<Id>, id: Id)
    ensures var q' := Resettle(c, q, refusals);
      q'.info == q.info && q'.pending == q.pending && (id !in q.asks && id !in q.awaitingOutcome ==> id !in q'.asks)
  {
  }

  lemma EndedWaits(c: Config, q: Queue, x: Id, result: PayResult, refused: bool, id: Id)
    requires q.activeCount > 0 && x !in q.asks
    ensures WaitingOf(Ended(c, q, x, result, refused), id) ==
      if x == id && result == StillPending && c.resolver then Made(Fail, refused) else WaitingOf(q, id)
  {
    hide LastOf;
    if result == StillPending && c.resolver {
      hide AskAll;
      var q0 := q.(status := q.status[x := Dispatching], activeCount := q.activeCount - 1, running := q.running - {x});
      AskAllWaits(c, q0, map[x := Fail], if refused then {x} else {}, id);
    }
  }

  lemma EndWaits(c: Config, q: Queue, l: Ledger, op: Op, id: Id)
    requires Good(c, q, l) && op.OpEndDispatch? && Enabled(q, l, op) && forall x :: x in q.pending ==> x in q.info
    ensures WaitingOf(Perform(c, q, l, op).0, id) == WaitsAfter(c, q, op, id)
  {
    hide Good, Pass, Ended, WaitingOf;
    OwnedOnce(c, q, l, op.id);
    EndedWaits(c, q, op.id, op.result, op.refused, id);
    PassWaits(c, Ended(c, q, op.id, op.result, op.refused), op.answers, id);
  }

  lemma RequeueWaits(c: Config, q: Queue, x: Id, answers: seq<bool>, id: Id)
    requires x in q.info && x !in q.awaitingOutcome && forall y :: y in q.pending ==> y in q.info
    ensures forall y :: y in InsertPending(q.info, q.pending, x) ==> y in q.info
    ensures var q2 := q.(asks := q.asks - {x}, status := q.status[x := Queued],
                         pending := InsertPending(q.info, q.pending, x));
      WaitingOf(Pass(c, q2, answers).0, id) == if x == id then NoAsk else WaitingOf(q, id)
  {
    hide Pass, InsertPending;
    InsertPendingMembers(q.info, q.pending, x);
    PassWaits(c, q.(asks := q.asks - {x}, status := q.status[x := Queued],
                    pending := InsertPending(q.info, q.pending, x)), answers, id);
  }

  lemma AnswerWaits(c: Config, q: Queue, l: Ledger, op: Op, id: Id)
    requires Good(c, q, l) && op.OpAnswer? && Enabled(q, l, op) && forall y :: y in q.pending ==> y in q.info
    ensures WaitingOf(Perform(c, q, l, op).0, id) == WaitsAfter(c, q, op, id)
  {
    hide Good, Pass, InsertPending, LastOf;
    OwnedOnce(c, q, l, op.id);
    if op.verdict == WasUnpaid && q.asks[op.id] != Fail {
      RequeueWaits(c, q, op.id, op.answers, id);
    }
  }

  lemma EnqueueWaits(c: Config, q: Queue, l: Ledger, op: Op, id: Id)
    requires op.OpEnqueue? && Enabled(q, l, op) && forall y :: y in q.pending ==> y in q.info
    ensures WaitingOf(Perform(c, q, l, op).0, id) == WaitingOf(q, id)
  {
    hide Pass, InsertPending;
    InsertPendingMembers(q.info[op.id := Info(op.payment, q.nextSequence)], q.pending, op.id);
    PassWaits(c, Enqueued(q, op.id, op.payment), op.answers, id);
  }

  /** Each ask, and each ask to be made again, is there for its reason, with what an 'unpaid' then leads to. */
  lemma OpWaits(c: Config, q: Queue, l: Ledger, op: Op, id: Id)
    requires Good(c, q, l) && Enabled(q, l, op) && forall x :: x in q.pending ==> x in q.info
    ensures WaitingOf(Perform(c, q, l, op).0, id) == WaitsAfter(c, q, op, id)
  {
    hide Good, Pass, AskAll, Resettle, Start, EndDispatch, Answer, Enqueue;
    match op
    case OpEnqueue(_, _, _) => EnqueueWaits(c, q, l, op, id);
    case OpStart(refusals, answers) => StartWaits(c, q, l, refusals, answers, id);
    case OpPoke(answers) => PassWaits(c, q, answers, id);
    case OpEndDispatch(_, _, _, _) => EndWaits(c, q, l, op, id);
    case OpAnswer(_, _, _) => AnswerWaits(c, q, l, op, id);
    case OpResettle(refusals) =>
      OwnedOnce(c, q, l, id);
      NoneAsked(c, q, l);
      ResettleWaits(c, q, refusals, id);
    case OpRefuse(x) =>
      OwnedOnce(c, q, l, x);
      AskedIsOut(c, q, l, x);
    case _ =>
  }

  // ----- started and stopped -----

  /** The flags an operation leaves: a start before any stop starts, a stop stops, and nothing undoes either. */
  lemma OpFlags(c: Config, q: Queue, l: Ledger, op: Op)
    requires Enabled(q, l, op) && forall x :: x in q.pending ==> x in q.info
    ensures var q' := Perform(c, q, l, op).0;
      && (q'.started <==> q.started || (op.OpStart? && !q.stopped))
      && (q'.stopped <==> q.stopped || op.OpStop?)
      && (q'.restored == if op.OpStart? && !q.stopped && !q.started then {} else q.restored)
  {
    hide Pass, LastOf, Start, EndDispatch, Answer, Enqueue, AskAll;
    match op
    case OpEnqueue(x, p, answers) => EnqueueFlags(c, q, x, p, answers);
    case OpStart(refusals, answers) => StartFlags(c, q, refusals, answers);
    case OpPoke(answers) => PassWrites(c, q, answers);
    case OpEndDispatch(x, result, refused, answers) => EndFlags(c, q, x, result, refused, answers);
    case OpAnswer(x, verdict, answers) => AnswerFlags(c, q, x, verdict, answers);
    case OpResettle(refusals) => AskAllFlags(c, q.(awaitingOutcome := map[]), q.awaitingOutcome, refusals);
    case _ =>
  }

  ghost predicate SameFlags(q: Queue, q': Queue) {
    q'.started == q.started && q'.stopped == q.stopped && q'.restored == q.restored
  }

  lemma AskAllFlags(c: Config, q: Queue, asks: map<Id, OnUnpaid>, refusals: set<Id>)
    ensures SameFlags(q, AskAll(c, q, asks, refusals))
  {
  }

  lemma EnqueueFlags(c: Config, q: Queue, x: Id, p: Payment, answers: seq<bool>)
    requires forall y :: y in q.pending ==> y in q.info
    ensures SameFlags(q, Enqueue(c, q, x, p, answers).0)
  {
    hide Pass, InsertPending, ByPass;
    InsertPendingMembers(q.info[x := Info(p, q.nextSequence)], q.pending, x);
    PassWrites(c, Enqueued(q, x, p), answers);
  }

  lemma EndFlags(c: Config, q: Queue, x: Id, result: PayResult, refused: bool, answers: seq<bool>)
    requires x in q.running && q.activeCount > 0 && forall y :: y in q.pending ==> y in q.info
    ensures SameFlags(q, EndDispatch(c, q, x, result, refused, answers).0)
  {
    hide Pass, LastOf, ByPass;
    PassWrites(c, Ended(c, q, x, result, refused), answers);
  }

  lemma AnswerFlags(c: Config, q: Queue, x: Id, verdict: Verdict, answers: seq<bool>)
    requires x in q.asks && x in q.info && forall y :: y in q.pending ==> y in q.info
    ensures SameFlags(q, Answer(c, q, x, verdict, answers).0)
  {
    hide Pass, InsertPending, LastOf, ByPass;
    InsertPendingMembers(q.info, q.pending, x);
    PassWrites(c, q.(asks := q.asks - {x}, status := q.status[x := Queued],
                     pending := InsertPending(q.info, q.pending, x)), answers);
  }

  lemma StartFlags(c: Config, q: Queue, refusals: set<Id>, answers: seq<bool>)
    requires forall x :: x in q.pending ==> x in q.info
    ensures var q' := Start(c, q, refusals, answers).0;
      && (q'.started <==> q.started || !q.stopped) && (q'.stopped <==> q.stopped)
      && (q'.restored == if !q.stopped && !q.started then {} else q.restored)
  {
    hide Pass;
    if !q.stopped && !q.started {
      var left := map id | id in q.interrupted && id in q.active :: Requeue;
      var q1 := Resettle(c, q.(started := true, restored := {}, interrupted := {}), refusals);
      PassWrites(c, AskAll(c, q1, left, refusals), answers);
    }
  }

  /** A stopped queue sends nothing, and neither does an operation that comes to no pass. */
  lemma OpSendsNothing(c: Config, q: Queue, l: Ledger, op: Op)
    requires Good(c, q, l) && Enabled(q, l, op) && (q.stopped || !Passes(q, op))
    requires forall x :: x in q.pending ==> x in q.info
    ensures forall e :: e in Perform(c, q, l, op).1 ==> !e.Call?
  {
    hide Good, InsertPending, LastOf;
    match op
    case OpEnqueue(x, p, answers) =>
      InsertPendingMembers(q.info[x := Info(p, q.nextSequence)], q.pending, x);
      assert Pass(c, Enqueued(q, x, p), answers).1 == [];
    case OpPrune(_, order) => DeletesOnly(order);
    case OpAnswer(x, verdict, answers) =>
      hide Pass;
      InsertPendingMembers(q.info, q.pending, x);
      StoppedPass(c, q.(asks := q.asks - {x}, status := q.status[x := Queued],
                        pending := InsertPending(q.info, q.pending, x)), answers);
    case OpEndDispatch(x, result, refused, answers) =>
      hide Pass;
      StoppedPass(c, Ended(c, q, x, result, refused), answers);
    case OpStart(_, _) => hide Pass;
    case OpPoke(_) => hide Pass;
    case _ =>
  }

  lemma StoppedPass(c: Config, q: Queue, answers: seq<bool>)
    requires forall x :: x in q.pending ==> x in q.info
    ensures q.stopped ==> Pass(c, q, answers).1 == []
  {
  }

  /** After a stop, and until the process ends, the payer is not called. */
  lemma {:induction false} StoppedSendsNothing(c: Config, ws: seq<World>, moves: seq<Move>, j: nat, i: nat)
    requires NamedRun(c, ws, moves) && j < i < |moves| && moves[j] == Does(OpStop)
    requires forall k :: j < k <= i ==> moves[k].Does? || moves[k].StopsIn?
    ensures ws[i].queue.Some? && ws[i].queue.value.stopped && ws[i].history <= ws[i + 1].history
    ensures forall e :: e in Added(ws[i], ws[i + 1]) ==> !e.Call?
    decreases i
  {
    hide Perform, LedgerOf, Enabled, WorldInv, Good, Moves;
    var w, m := ws[i - 1], moves[i - 1];
    assert Moves(c, w, m, ws[i]) && Moves(c, ws[i], moves[i], ws[i + 1]);
    if j < i - 1 {
      StoppedSendsNothing(c, ws, moves, j, i - 1);
    }
    OpAdds(c, w, m, ws[i]);
    OpAdds(c, ws[i], moves[i], ws[i + 1]);
    MoveIsWhole(c, w, m, ws[i]);
    OpFlags(c, w.queue.value, LedgerOf(w.history), m.op);
    NamedInv(c, ws, moves, i);
    GoodOf(c, ws[i]);
    OpSendsNothing(c, ws[i].queue.value, LedgerOf(ws[i].history), moves[i].op);
  }

  lemma MoveIsWhole(c: Config, w: World, m: Move, w': World)
    requires (m.Does? || m.StopsIn?) && Moves(c, w, m, w') && w'.queue.Some?
    ensures m.Does? && w.queue.Some? && Enabled(w.queue.value, LedgerOf(w.history), m.op)
    ensures forall id :: id in w.queue.value.pending ==> id in w.queue.value.info
    ensures w'.queue.value == Perform(c, w.queue.value, LedgerOf(w.history), m.op).0
  {
    hide Perform, LedgerOf, Enabled;
  }

  // ----- before start -----

  /** The process whose history ends here accepted the entry itself. */
  ghost predicate SavedByThis(history: seq<Effect>, id: Id) {
    exists a :: 0 <= a < |history| && history[a].Save? && history[a].id == id && Boot !in history[a + 1..]
  }

  /** Before start, what may be sent is what this process accepted, and no 'unpaid' to come queues an entry. */
  ghost predicate Held(q: Queue, history: seq<Effect>) {
    !q.started ==>
      && (forall id :: id in q.pending ==> id in q.restored || SavedByThis(history, id))
      && (forall id :: WaitingOf(q, id) != Asked(Requeue) && WaitingOf(q, id) != Again(Requeue))
  }

  lemma {:induction false} PassPending(c: Config, q: Queue, answers: seq<bool>)
    requires forall id :: id in q.pending ==> id in q.info
    ensures var (q', es) := Pass(c, q, answers);
      && (forall id :: id in q'.pending ==> id in q.pending)
      && (forall id :: Call(id) in es ==> id in q.pending && id !in q.restored)
    decreases |q.pending|
  {
    var i := FirstReleased(q.pending, q.restored);
    if !q.stopped && q.activeCount < c.maxConcurrent && i < |q.pending| {
      var id := q.pending[i];
      var p := q.info[id].payment;
      if p.amount.Malformed? {
        PassPending(c, RecordFailed(c, q.(pending := RemoveAt(q.pending, i)), id).0, answers);
      } else if !(AmountToCheck(p) > 0 && (answers == [] || !answers[0])) {
        PassPending(c, Dispatch(q, i).0, if AmountToCheck(p) > 0 then answers[1..] else answers);
      }
    }
  }

  /** An operation other than a start sends only released entries that were pending, or that it adds to them. */
  lemma OpPending(c: Config, q: Queue, l: Ledger, op: Op, id: Id)
    requires Enabled(q, l, op) && !op.OpStart? && forall x :: x in q.pending ==> x in q.info
    ensures var (q', es) := Perform(c, q, l, op);
      id in q'.pending || Call(id) in es ==>
        || (id in q.pending && (Call(id) in es ==> id !in q.restored))
        || (op.OpEnqueue? && op.id == id)
        || (op.OpAnswer? && op.id == id && q.asks[id] == Requeue)
  {
    hide Pass, InsertPending, LastOf, Without;
    match op
    case OpEnqueue(x, p, answers) =>
      InsertPendingMembers(q.info[x := Info(p, q.nextSequence)], q.pending, x);
      PassPending(c, Enqueued(q, x, p), answers);
    case OpCancel(x) => WithoutWithin(q.pending, x);
    case OpPoke(answers) => PassPending(c, q, answers);
    case OpEndDispatch(x, result, refused, answers) => PassPending(c, Ended(c, q, x, result, refused), answers);
    case OpAnswer(x, verdict, answers) =>
      InsertPendingMembers(q.info, q.pending, x);
      PassPending(c, q.(asks := q.asks - {x}, status := q.status[x := Queued],
                        pending := InsertPending(q.info, q.pending, x)), answers);
    case OpPrune(_, order) => DeletesOnly(order);
    case _ =>
  }

  lemma {:induction false} WithoutWithin(s: seq<Id>, x: Id)
    ensures forall id :: id in Without(s, x) ==> id in s
  {
    if s != [] {
      WithoutWithin(s[1..], x);
    }
  }

  lemma SavedStays(h: seq<Effect>, more: seq<Effect>, id: Id)
    requires Boot !in more
    ensures SavedByThis(h, id) ==> SavedByThis(h + more, id)
    ensures (exists p :: more != [] && more[0] == Save(id, p)) ==> SavedByThis(h + more, id)
  {
    var all := h + more;
    if a :| 0 <= a < |h| && h[a].Save? && h[a].id == id && Boot !in h[a + 1..] {
      assert all[a] == h[a] && all[a + 1..] == h[a + 1..] + more;
    }
    if p :| more != [] && more[0] == Save(id, p) {
      assert all[|h|] == more[0] && all[|h| + 1..] == more[1..];
    }
  }

  lemma NotRequeued(c: Config, q: Queue, op: Op, id: Id)
    requires !q.started && !op.OpStart? && (forall x :: WaitingOf(q, x) != Asked(Requeue) && WaitingOf(q, x) != Again(Requeue))
    ensures WaitsAfter(c, q, op, id) != Asked(Requeue) && WaitsAfter(c, q, op, id) != Again(Requeue)
    ensures op.OpAnswer? && op.id in q.asks ==> q.asks[op.id] == Fail
  {
    assert op.OpAnswer? && op.id in q.asks ==> WaitingOf(q, op.id) == Asked(q.asks[op.id]);
  }

  lemma OpHeld(c: Config, q: Queue, history: seq<Effect>, op: Op)
    requires Good(c, q, LedgerOf(history)) && Held(q, history) && Enabled(q, LedgerOf(history), op)
    requires forall x :: x in q.pending ==> x in q.info
    ensures var (q', es) := Perform(c, q, LedgerOf(history), op); Held(q', history + es)
  {
    hide Perform, LedgerOf, Good, WaitingOf, WaitsAfter, SavedByThis, Own;
    var l := LedgerOf(history);
    var (q', es) := Perform(c, q, l, op);
    OpFlags(c, q, l, op);
    if !q'.started {
      assert !q.started && (op.OpStart? ==> q.stopped);
      if op.OpStart? {
        StoppedStart(c, q, l, op);
        assert history + [] == history;
      } else {
        var rest := OpWrites(c, q, l, op);
        NoBoot(c, q, op, rest);
        forall id | id in q'.pending ensures id in q'.restored || SavedByThis(history + es, id) {
          OpPending(c, q, l, op, id);
          NotRequeued(c, q, op, id);
          SavedStays(history, es, id);
          assert op.OpEnqueue? ==> es[0] == Save(op.id, op.payment) by { OwnFails(c, q, op, id); }
        }
        forall id ensures WaitingOf(q', id) != Asked(Requeue) && WaitingOf(q', id) != Again(Requeue) {
          OpWaits(c, q, l, op, id);
          NotRequeued(c, q, op, id);
        }
      }
    }
  }

  lemma StoppedStart(c: Config, q: Queue, l: Ledger, op: Op)
    requires op.OpStart? && q.stopped && forall x :: x in q.pending ==> x in q.info
    ensures Perform(c, q, l, op) == (q, [])
  {
  }

  lemma BootHeld(c: Config, w: World, order: seq<Id>, done: seq<Id>)
    requires IsRestoreOrder(LedgerOf(w.history).rows, order)
    ensures var (q, es) := Restore(c, LedgerOf(w.history).rows, order, done); Held(q, w.history + es)
  {
    QueuedInMembers(LedgerOf(w.history).rows, order);
    hide QueuedIn, FailsIn, LastOf, IndexOf, SavedByThis;
  }

  lemma {:induction false} NamedHeld(c: Config, ws: seq<World>, moves: seq<Move>, i: nat)
    requires NamedRun(c, ws, moves) && i < |ws| && ws[i].queue.Some?
    ensures Held(ws[i].queue.value, ws[i].history)
  {
    hide WorldInv, Good, Perform, Enabled, Held, Restore, LedgerOf;
    assert i > 0;
    var w := ws[i - 1];
    assert Moves(c, w, moves[i - 1], ws[i]);
    if moves[i - 1].Does? {
      var op := moves[i - 1].op;
      assert OpStep(c, w, op, ws[i]);
      NamedInv(c, ws, moves, i - 1);
      GoodOf(c, w);
      NamedHeld(c, ws, moves, i - 1);
      OpHeld(c, w.queue.value, w.history, op);
    } else {
      var order, done :| BootStep(c, w, order, done, ws[i]);
      BootHeld(c, w, order, done);
    }
  }

  /** Before start, a process sends only what it accepted itself. */
  lemma RestoredWaitForStart(c: Config, ws: seq<World>, moves: seq<Move>, i: nat, id: Id)
    requires NamedRun(c, ws, moves) && i < |moves| && (moves[i].Does? || moves[i].StopsIn?)
    requires ws[i].queue.Some? && !ws[i].queue.value.started && !moves[i].op.OpStart?
    ensures ws[i].history <= ws[i + 1].history
    ensures Call(id) in Added(ws[i], ws[i + 1]) ==>
      SavedByThis(ws[i].history, id) || (moves[i].op.OpEnqueue? && moves[i].op.id == id)
  {
    hide Perform, LedgerOf, WorldInv, Good, Moves, WaitingOf, SavedByThis;
    var q, op := ws[i].queue.value, moves[i].op;
    assert Moves(c, ws[i], moves[i], ws[i + 1]);
    OpAdds(c, ws[i], moves[i], ws[i + 1]);
    NamedHeld(c, ws, moves, i);
    OpPending(c, q, LedgerOf(ws[i].history), op, id);
    NotRequeued(c, q, op, id);
  }

  // ----- pruning -----

  lemma {:induction false} DeletesRows(l: Ledger, ids: seq<Id>)
    ensures ApplyAll(l, Deletes(ids)).rows == l.rows - (set id | id in ids)
    decreases |ids|
  {
    if ids != [] {
      assert Deletes(ids)[1..] == Deletes(ids[1..]);
      DeletesRows(Apply(l, Delete(ids[0])), ids[1..]);
    }
  }

  /**
   * A prune empties memory's history, and deletes from storage the rows of that
   * history and of every finished entry listed; it leaves all else as it was.
   */
  lemma PruneExactly(c: Config, q: Queue, l: Ledger, listed: set<Id>, order: seq<Id>)
    requires Good(c, q, l) && Enumerates(order, Removed(q, listed))
    ensures var (q', es) := Perform(c, q, l, OpPrune(listed, order));
      && q' == q.(finished := [], unknownOutcomes := {})
      && (forall id :: id in ApplyAll(l, es).rows <==>
            && id in l.rows
            && (c.storage ==> id !in q.finished && id !in q.unknownOutcomes && (id in listed ==> id in q.active)))
  {
    hide Good, ApplyAll;
    DeletesRows(l, order);
    NoEffects(l);
    forall id ensures id in order <==> id in Removed(q, listed) {
      assert id in order <==> id in set x | x in order;
    }
    assert forall id :: id in (set x | x in q.finished) <==> id in q.finished;
  }
}
