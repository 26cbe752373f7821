/**
 * What the payment queue keeps in memory of its finished entries
 * (src/cli/payment-queue.ts): over any stretch of a process's life, the last
 * maxRetainedHistory of the entries that retired in it.
 */
module QueueRetained {
  import opened PaymentQueue

  function FinalOf(e: Effect): seq<Id> {
    if e.Write? && (e.status == Completed || e.status == Failed) then [e.id] else []
  }

  /** The entries recorded completed or failed, in the order they were. */
  function Finals(es: seq<Effect>): seq<Id> {
    if es == [] then [] else FinalOf(es[0]) + Finals(es[1..])
  }

  lemma FinalsHead(e: Effect, es: seq<Effect>)
    ensures Finals([e] + es) == FinalOf(e) + Finals(es)
  {
    assert ([e] + es)[1..] == es;
  }

  /** Dropping the oldest as one goes, or once at the end, leaves the same list. */
  lemma LastAbsorbs(a: seq<Id>, b: seq<Id>, keep: Option<nat>)
    ensures LastOf(LastOf(a, keep) + b, keep) == LastOf(a + b, keep)
  {
    if keep.Some? && |a| > keep.value {
      var kept := a[|a| - keep.value..];
      assert |b| == 0 ==> kept + b == kept;
      assert (a + b)[|a + b| - keep.value..] == (kept + b)[|kept + b| - keep.value..];
    }
  }

  ghost predicate Kept(c: Config, q: Queue, retired: seq<Id>, q': Queue) {
    q'.finished == LastOf(q.finished + retired, c.keep)
  }

  /** `finished` is never longer than it may be. */
  ghost predicate Trimmed(c: Config, q: Queue) {
    LastOf(q.finished, c.keep) == q.finished
  }

  lemma KeptThen(c: Config, q: Queue, a: seq<Id>, q1: Queue, b: seq<Id>, q2: Queue)
    requires Kept(c, q, a, q1) && Kept(c, q1, b, q2)
    ensures Kept(c, q, a + b, q2)
  {
    LastAbsorbs(q.finished + a, b, c.keep);
    assert (q.finished + a) + b == q.finished + (a + b);
  }

  lemma KeptTrims(c: Config, q: Queue, a: seq<Id>, q': Queue)
    requires Kept(c, q, a, q')
    ensures Trimmed(c, q')
  {
    LastAbsorbs(q.finished + a, [], c.keep);
    assert q'.finished + [] == q'.finished;
    assert (q.finished + a) + [] == q.finished + a;
  }

  lemma KeptNone(c: Config, q: Queue, q': Queue)
    requires Trimmed(c, q) && q'.finished == q.finished
    ensures Kept(c, q, [], q')
  {
    assert q.finished + [] == q.finished;
  }

  lemma {:induction false} PassRetains(c: Config, q: Queue, answers: seq<bool>)
    requires Trimmed(c, q) && forall id :: id in q.pending ==> id in q.info
    ensures Kept(c, q, Finals(Pass(c, q, answers).1), Pass(c, q, answers).0)
    decreases |q.pending|
  {
    hide Kept, LastOf, Finals, Trimmed;
    var i := FirstReleased(q.pending, q.restored);
    NoFinals();
    KeptNone(c, q, q);
    if !q.stopped && q.activeCount < c.maxConcurrent && i < |q.pending| {
      var id := q.pending[i];
      var p := q.info[id].payment;
      if p.amount.Malformed? {
        var (q1, es1) := RecordFailed(c, q.(pending := RemoveAt(q.pending, i)), id);
        FailRetains(c, q, i);
        PassRetains(c, q1, answers);
        FinalsHead(Write(id, Failed), Pass(c, q1, answers).1);
        KeptThen(c, q, [id], q1, Finals(Pass(c, q1, answers).1), Pass(c, q1, answers).0);
      } else if !(AmountToCheck(p) > 0 && (answers == [] || !answers[0])) {
        var (q1, es1) := Dispatch(q, i);
        var rest := if AmountToCheck(p) > 0 then answers[1..] else answers;
        KeptNone(c, q, q1);
        TrimmedSame(c, q, q1);
        PassRetains(c, q1, rest);
        DispatchFinals(id, Pass(c, q1, rest).1);
        KeptThen(c, q, [], q1, Finals(Pass(c, q1, rest).1), Pass(c, q1, rest).0);
        assert [] + Finals(Pass(c, q1, rest).1) == Finals(Pass(c, q1, rest).1);
      }
    }
  }

  lemma NoFinals()
    ensures Finals([]) == []
  {
  }

  lemma TrimmedSame(c: Config, q: Queue, q': Queue)
    requires Trimmed(c, q) && q'.finished == q.finished
    ensures Trimmed(c, q')
  {
  }

  lemma FailRetains(c: Config, q: Queue, i: nat)
    requires i < |q.pending|
    ensures var q1 := RecordFailed(c, q.(pending := RemoveAt(q.pending, i)), q.pending[i]).0;
      Kept(c, q, [q.pending[i]], q1) && Trimmed(c, q1)
  {
    hide LastOf;
    var q1 := RecordFailed(c, q.(pending := RemoveAt(q.pending, i)), q.pending[i]).0;
    KeptTrims(c, q, [q.pending[i]], q1);
  }

  lemma DispatchFinals(id: Id, es: seq<Effect>)
    ensures Finals([Write(id, Dispatching), Call(id)] + es) == Finals(es)
  {
    FinalsHead(Call(id), es);
    FinalsHead(Write(id, Dispatching), [Call(id)] + es);
    assert [Write(id, Dispatching), Call(id)] + es == [Write(id, Dispatching)] + ([Call(id)] + es);
  }

  /** What an operation retires: with neither storage nor resolver, an unknown outcome is kept apart. */
  function Retired(c: Config, op: Op, es: seq<Effect>): seq<Id> {
    if op.OpEndDispatch? && op.result == StillPending && !c.storage && !c.resolver && es != [] then Finals(es[1..])
    else Finals(es)
  }

  lemma EndDispatchRetains(c: Config, q: Queue, id: Id, result: PayResult, refused: bool, answers: seq<bool>)
    requires Trimmed(c, q) && id in q.running && q.activeCount > 0 && forall x :: x in q.pending ==> x in q.info
    ensures var (q', es) := EndDispatch(c, q, id, result, refused, answers);
      Kept(c, q, Retired(c, OpEndDispatch(id, result, refused, answers), es), q')
  {
    hide Pass, LastOf, Kept, Trimmed, Finals, Ended;
    var q1 := Ended(c, q, id, result, refused);
    var (q2, es) := Pass(c, q1, answers);
    var e := Write(id, EndStatus(c, result));
    assert ([e] + es)[1..] == es;
    FinalsHead(e, es);
    EndedRetains(c, q, id, result, refused);
    var first := if !c.storage && !c.resolver && result == StillPending then [] else FinalOf(e);
    PassRetains(c, q1, answers);
    KeptThen(c, q, first, q1, Finals(es), q2);
    assert [] + Finals(es) == Finals(es);
  }

  lemma EndedRetains(c: Config, q: Queue, id: Id, result: PayResult, refused: bool)
    requires q.activeCount > 0 && Trimmed(c, q)
    ensures var q1 := Ended(c, q, id, result, refused);
      && Kept(c, q, if !c.storage && !c.resolver && result == StillPending then [] else FinalOf(Write(id, EndStatus(c, result))), q1)
      && Trimmed(c, q1)
  {
    hide LastOf;
    var q1 := Ended(c, q, id, result, refused);
    if q1.finished == q.finished && (EndStatus(c, result) == Dispatching || (!c.storage && result == StillPending)) {
      KeptNone(c, q, q1);
    } else {
      KeptTrims(c, q, [id], q1);
    }
  }

  lemma AnswerRetains(c: Config, q: Queue, id: Id, verdict: Verdict, answers: seq<bool>)
    requires Trimmed(c, q) && id in q.asks && id in q.info && forall x :: x in q.pending ==> x in q.info
    ensures var (q', es) := Answer(c, q, id, verdict, answers); Kept(c, q, Finals(es), q')
  {
    hide Pass, LastOf, InsertPending;
    NoFinals();
    if id in q.status && q.status[id] == Dispatching && verdict == WasUnpaid && q.asks[id] == Requeue {
      InsertPendingMembers(q.info, q.pending, id);
      var q2 := q.(asks := q.asks - {id}, status := q.status[id := Queued], pending := InsertPending(q.info, q.pending, id));
      PassRetains(c, q2, answers);
      UnpaidFinals(id, Pass(c, q2, answers).1);
      hide Finals;
    } else {
      KeptNone(c, q, q);
      FinalsOne(Write(id, Completed));
      FinalsOne(Write(id, Failed));
      FinalsHead(Unpaid(id), [Write(id, Failed)]);
      assert [] + Finals([Write(id, Failed)]) == Finals([Write(id, Failed)]);
      hide Finals;
    }
  }

  lemma FinalsOne(e: Effect)
    ensures Finals([e]) == FinalOf(e)
  {
    assert [e][1..] == [];
  }

  lemma UnpaidFinals(id: Id, es: seq<Effect>)
    ensures Finals([Unpaid(id), Write(id, Queued)] + es) == Finals(es)
  {
    FinalsHead(Write(id, Queued), es);
    FinalsHead(Unpaid(id), [Write(id, Queued)] + es);
    assert [Unpaid(id), Write(id, Queued)] + es == [Unpaid(id)] + ([Write(id, Queued)] + es);
  }

  /** The entries that only wait for a pass: enqueue, start and poke. */
  lemma PassingRetains(c: Config, q: Queue, l: Ledger, op: Op)
    requires Trimmed(c, q) && Enabled(q, l, op) && (forall id :: id in q.pending ==> id in q.info)
    requires op.OpEnqueue? || op.OpStart? || op.OpPoke?
    ensures var (q', es) := Perform(c, q, l, op); Kept(c, q, Finals(es), q')
  {
    hide Pass, LastOf, Kept, Finals, InsertPending, AskAll;
    NoFinals();
    KeptNone(c, q, q);
    match op
    case OpEnqueue(id, p, answers) =>
      InsertPendingMembers(q.info[id := Info(p, q.nextSequence)], q.pending, id);
      var q1 := Enqueued(q, id, p);
      TrimmedSame(c, q, q1);
      PassRetains(c, q1, answers);
      SameStart(c, q, q1, Finals(Pass(c, q1, answers).1), Pass(c, q1, answers).0);
      FinalsHead(Save(id, p), Pass(c, q1, answers).1);
      assert [] + Finals(Pass(c, q1, answers).1) == Finals(Pass(c, q1, answers).1);
    case OpStart(refusals, answers) =>
      if !q.stopped && !q.started {
        var q1 := Asked(c, q, refusals);
        PassRetains(c, q1, answers);
        SameStart(c, q, q1, Finals(Pass(c, q1, answers).1), Pass(c, q1, answers).0);
      }
    case OpPoke(answers) => PassRetains(c, q, answers);
  }

  /** start() before its pass: the interrupted entries are asked about, and nothing retires. */
  function Asked(c: Config, q: Queue, refusals: set<Id>): (q': Queue)
    ensures q'.finished == q.finished && q'.pending == q.pending && q'.info == q.info
  {
    var left := map id | id in q.interrupted && id in q.active :: Requeue;
    AskAll(c, Resettle(c, q.(started := true, restored := {}, interrupted := {}), refusals), left, refusals)
  }

  lemma SameStart(c: Config, q: Queue, q1: Queue, retired: seq<Id>, q2: Queue)
    requires q1.finished == q.finished && Kept(c, q1, retired, q2)
    ensures Kept(c, q, retired, q2)
  {
  }

  /** One operation other than prune: the history in memory is the last of what it held and what retired. */
  lemma OpRetains(c: Config, q: Queue, l: Ledger, op: Op)
    requires Trimmed(c, q) && Enabled(q, l, op) && !op.OpPrune? && (forall id :: id in q.pending ==> id in q.info)
    ensures var (q', es) := Perform(c, q, l, op); Kept(c, q, Retired(c, op, es), q') && Trimmed(c, q')
  {
    hide Pass, LastOf, Finals, Trimmed;
    NoFinals();
    var (q', es) := Perform(c, q, l, op);
    match op {
      case OpEndDispatch(id, result, refused, answers) => EndDispatchRetains(c, q, id, result, refused, answers);
      case OpAnswer(id, verdict, answers) => AnswerRetains(c, q, id, verdict, answers);
      case OpEnqueue(_, _, _) => PassingRetains(c, q, l, op);
      case OpStart(_, _) => PassingRetains(c, q, l, op);
      case OpPoke(_) => PassingRetains(c, q, l, op);
      case OpCancel(id) =>
        CancelledFinals(id);
        KeptNone(c, q, q');
      case _ => KeptNone(c, q, q');
    }
    hide Kept;
    KeptTrims(c, q, Retired(c, op, es), q');
  }

  lemma CancelledFinals(id: Id)
    ensures Finals([Write(id, Cancelled)]) == []
  {
    FinalsOne(Write(id, Cancelled));
  }

  /** A stretch of one process's life, operation by operation, with what each retired. */
  ghost predicate Life(c: Config, qs: seq<Queue>, ls: seq<Ledger>, ops: seq<Op>, retired: seq<seq<Id>>) {
    && |qs| == |ops| + 1 && |ls| == |ops| && |retired| == |ops|
    && (forall i :: 0 <= i < |ops| ==> LifeStep(c, qs[i], ls[i], ops[i], retired[i], qs[i + 1]))
  }

  ghost predicate LifeStep(c: Config, q: Queue, l: Ledger, op: Op, retired: seq<Id>, q': Queue) {
    && !op.OpPrune? && Enabled(q, l, op) && (forall id :: id in q.pending ==> id in q.info)
    && var (q1, es) := Perform(c, q, l, op); q' == q1 && retired == Retired(c, op, es)
  }

  function Flat(retired: seq<seq<Id>>): seq<Id> {
    if retired == [] then [] else Flat(retired[..|retired| - 1]) + retired[|retired| - 1]
  }

  /** Between prunes, the history in memory is exactly the last maxRetainedHistory retirements, oldest first. */
  lemma {:induction false} RetainsLastRetired(
    c: Config, qs: seq<Queue>, ls: seq<Ledger>, ops: seq<Op>, retired: seq<seq<Id>>, before: seq<Id>)
    requires Life(c, qs, ls, ops, retired) && qs[0].finished == LastOf(before, c.keep)
    ensures qs[|ops|].finished == LastOf(before + Flat(retired), c.keep)
    ensures Trimmed(c, qs[|ops|])
    decreases |ops|
  {
    hide LifeStep, LastOf;
    if ops == [] {
      LastAbsorbs(before, [], c.keep);
      assert before + [] == before && qs[0].finished + [] == qs[0].finished;
    } else {
      var n := |ops| - 1;
      assert LifeStep(c, qs[n], ls[n], ops[n], retired[n], qs[n + 1]);
      forall i | 0 <= i < n ensures LifeStep(c, qs[..n + 1][i], ls[..n][i], ops[..n][i], retired[..n][i], qs[..n + 1][i + 1]) {
        assert LifeStep(c, qs[i], ls[i], ops[i], retired[i], qs[i + 1]);
      }
      RetainsLastRetired(c, qs[..n + 1], ls[..n], ops[..n], retired[..n], before);
      LifeRetains(c, qs[n], ls[n], ops[n], retired[n], qs[n + 1]);
      LastAbsorbs(before + Flat(retired[..n]), retired[n], c.keep);
      assert (before + Flat(retired[..n])) + retired[n] == before + Flat(retired);
    }
  }

  lemma LifeRetains(c: Config, q: Queue, l: Ledger, op: Op, retired: seq<Id>, q': Queue)
    requires Trimmed(c, q) && LifeStep(c, q, l, op, retired, q')
    ensures q'.finished == LastOf(q.finished + retired, c.keep) && Trimmed(c, q')
  {
    hide LastOf, Perform;
    OpRetains(c, q, l, op);
  }
}
