/**
 * The PaymentQueue class of src/cli/payment-queue.ts as it updates its fields,
 * each method proved against the operation it carries out.
 */
module PaymentQueueCode {
  import opened PaymentQueue

  /** addPending's binary search. */
  method PendingIndex(info: map<Id, Info>, pending: seq<Id>, id: Id) returns (low: nat)
    requires InDispatchOrder(info, pending) && id in info
    ensures low <= |pending|
    ensures pending[..low] + [id] + pending[low..] == InsertPending(info, pending, id)
  {
    low := 0;
    var high := |pending|;
    while low < high
      invariant low <= high <= |pending|
      invariant forall i :: 0 <= i < low ==> Precedes(info[pending[i]], info[id])
      invariant forall i :: high <= i < |pending| ==> !Precedes(info[pending[i]], info[id])
    {
      var mid := (low + high) / 2;
      if Precedes(info[pending[mid]], info[id]) { low := mid + 1; } else { high := mid; }
    }
    SplitIsInsert(info, pending, id, low);
  }

  lemma {:induction false} SplitIsInsert(info: map<Id, Info>, pending: seq<Id>, id: Id, low: nat)
    requires id in info && (forall p :: p in pending ==> p in info) && low <= |pending|
    requires forall i :: 0 <= i < low ==> Precedes(info[pending[i]], info[id])
    requires low < |pending| ==> !Precedes(info[pending[low]], info[id])
    ensures pending[..low] + [id] + pending[low..] == InsertPending(info, pending, id)
  {
    if low > 0 {
      SplitIsInsert(info, pending[1..], id, low - 1);
      assert pending[1..][..low - 1] == pending[1..low] && pending[1..][low - 1..] == pending[low..];
      assert pending[..low] == [pending[0]] + pending[1..low];
    }
  }

  /** retire's loop over the oldest keys. */
  method DropOldest(finished: seq<Id>, keep: Option<nat>) returns (kept: seq<Id>)
    ensures kept == LastOf(finished, keep)
  {
    kept := finished;
    while keep.Some? && |kept| > keep.value
      invariant |kept| <= |finished| && kept == finished[|finished| - |kept|..]
      invariant keep.Some? && |kept| < |finished| ==> |kept| >= keep.value
      invariant keep.None? ==> kept == finished
      decreases |kept|
    {
      kept := kept[1..];
    }
  }

  method FindReleased(pending: seq<Id>, restored: set<Id>) returns (index: nat)
    ensures index == FirstReleased(pending, restored)
  {
    index := 0;
    while index < |pending| && pending[index] in restored
      invariant index <= |pending|
      invariant forall j :: 0 <= j < index ==> pending[j] in restored
    {
      index := index + 1;
    }
  }

  lemma PassStops(c: Config, q: Queue, answers: seq<bool>)
    requires forall id :: id in q.pending ==> id in q.info
    requires var i := FirstReleased(q.pending, q.restored);
             || q.stopped || q.activeCount >= c.maxConcurrent || i == |q.pending|
             || (!q.info[q.pending[i]].payment.amount.Malformed?
                 && AmountToCheck(q.info[q.pending[i]].payment) > 0 && (answers == [] || !answers[0]))
    ensures Pass(c, q, answers) == (q, [])
  {
  }

  /** The state and effects of one turn of the loop, and the answers left. */
  ghost function Turn(c: Config, q: Queue, answers: seq<bool>): (Queue, seq<Effect>, seq<bool>)
    requires FirstReleased(q.pending, q.restored) < |q.pending|
    requires forall id :: id in q.pending ==> id in q.info
  {
    var i := FirstReleased(q.pending, q.restored);
    var p := q.info[q.pending[i]].payment;
    if p.amount.Malformed? then
      var (q1, es) := RecordFailed(c, q.(pending := RemoveAt(q.pending, i)), q.pending[i]);
      (q1, es, answers)
    else
      var (q1, es) := Dispatch(q, i);
      (q1, es, if AmountToCheck(p) > 0 && answers != [] then answers[1..] else answers)
  }

  lemma PassTurns(c: Config, q: Queue, answers: seq<bool>)
    requires forall id :: id in q.pending ==> id in q.info
    requires var i := FirstReleased(q.pending, q.restored);
             && !q.stopped && q.activeCount < c.maxConcurrent && i < |q.pending|
             && (q.info[q.pending[i]].payment.amount.Malformed?
                 || AmountToCheck(q.info[q.pending[i]].payment) == 0 || (answers != [] && answers[0]))
    ensures var (q1, es, rest) := Turn(c, q, answers);
            && |q1.pending| < |q.pending| && q1.info == q.info && q1.stopped == q.stopped
            && (forall id :: id in q1.pending ==> id in q1.info)
            && Pass(c, q, answers) == (Pass(c, q1, rest).0, es + Pass(c, q1, rest).1)
  {
  }

  /** The loop of prune() over what storage lists. */
  method DropActive(listed: set<Id>, active: set<Id>) returns (ids: set<Id>)
    ensures ids == set id | id in listed && id !in active
  {
    ids := {};
    var rest := listed;
    while rest != {}
      invariant rest <= listed && ids == set id | id in listed && id !in rest && id !in active
    {
      var id :| id in rest;
      rest := rest - {id};
      if id !in active { ids := ids + {id}; }
    }
  }

  lemma EnumeratesMore(order: seq<Id>, id: Id)
    requires id !in order && forall i, j :: 0 <= i < j < |order| ==> order[i] != order[j]
    ensures Enumerates(order + [id], (set x | x in order) + {id})
  {
    assert forall x :: x in order + [id] <==> x in order || x == id;
  }

  lemma {:induction false} DeletesAppend(ids: seq<Id>, id: Id)
    ensures Deletes(ids + [id]) == Deletes(ids) + [Delete(id)]
  {
    if ids == [] {
      assert ids + [id] == [id];
    } else {
      DeletesAppend(ids[1..], id);
      assert (ids + [id])[1..] == ids[1..] + [id];
    }
  }

  // ----- what a start reads, and in which order -----

  function RowPayment(rows: map<Id, Row>, id: Id): Payment {
    if id in rows then rows[id].payment else Payment(0.0, Absent, 0, 0, 0)
  }

  function Numbering(rows: map<Id, Row>): (Id, Id) -> bool {
    (a: Id, b: Id) => SortsBefore(RowPayment(rows, a), RowPayment(rows, b))
  }

  function FinishTime(at: map<Id, nat>, id: Id): nat {
    if id in at then at[id] else 0
  }

  /** newestFinishedFirst: the order of ids settles a tie. */
  function NewestFirst(at: map<Id, nat>): (Id, Id) -> bool {
    (a: Id, b: Id) =>
      FinishTime(at, a) > FinishTime(at, b) || (FinishTime(at, a) == FinishTime(at, b) && a >= b)
  }

  function OldestFirst(at: map<Id, nat>): (Id, Id) -> bool {
    (a: Id, b: Id) => NewestFirst(at)(b, a)
  }

  ghost predicate Distinct(s: seq<Id>) {
    forall i, j :: 0 <= i < j < |s| ==> s[i] != s[j]
  }

  ghost predicate SortedBy(s: seq<Id>, before: (Id, Id) -> bool) {
    forall i, j :: 0 <= i < j < |s| ==> before(s[i], s[j])
  }

  ghost predicate Orders(before: (Id, Id) -> bool) {
    && (forall a, b :: before(a, b) || before(b, a))
    && (forall a, b, c :: before(a, b) && before(b, c) ==> before(a, c))
  }

  lemma EitherWay(before: (Id, Id) -> bool, a: Id, b: Id)
    requires Orders(before)
    ensures before(a, b) || before(b, a)
  {
  }

  function FirstOf(s: seq<Id>, keep: Option<nat>): seq<Id> {
    if keep.Some? && keep.value < |s| then s[..keep.value] else s
  }

  /**
   * `history` lists the finished rows, newest first; `order` holds the active rows
   * and the first `keep` of those, as they are numbered; `done` holds the ones of
   * `order` that come back finished, oldest first.
   */
  ghost predicate Reads(
    c: Config, rows: map<Id, Row>, at: map<Id, nat>, order: seq<Id>, history: seq<Id>, done: seq<Id>)
  {
    && IsRestoreOrder(rows, order)
    && Distinct(history) && SortedBy(history, NewestFirst(at))
    && (forall id :: id in history <==> id in rows && !IsActive(rows[id].status))
    && (forall id :: id in order <==> id in rows && (IsActive(rows[id].status) || id in FirstOf(history, c.keep)))
    && Distinct(done) && SortedBy(done, OldestFirst(at))
    && (forall id :: id in done <==> id in order && !IsActive(RestoredStatus(c, rows[id].status)))
  }

  /** What the orders mean: by priority, then age, then counter; and by the time an entry finished. */
  lemma ReadsMeans(
    c: Config, rows: map<Id, Row>, at: map<Id, nat>, order: seq<Id>, history: seq<Id>, done: seq<Id>, i: nat, j: nat)
    requires Reads(c, rows, at, order, history, done) && i < j
    ensures j < |order| ==>
      var a, b := rows[order[i]].payment, rows[order[j]].payment;
      && a.priority <= b.priority && (a.priority == b.priority ==> a.createdAt <= b.createdAt)
      && (a.priority == b.priority && a.createdAt == b.createdAt ==> a.counter <= b.counter)
    ensures j < |history| ==> FinishTime(at, history[i]) >= FinishTime(at, history[j])
    ensures j < |done| ==> FinishTime(at, done[i]) <= FinishTime(at, done[j])
  {
    hide RestoredStatus, FirstOf, IsActive;
    assert j < |history| ==> NewestFirst(at)(history[i], history[j]);
    assert j < |done| ==> OldestFirst(at)(done[i], done[j]);
  }

  /** A sort, by insertion. */
  method SortBy(ids: seq<Id>, before: (Id, Id) -> bool) returns (order: seq<Id>)
    requires Orders(before)
    ensures SortedBy(order, before) && multiset(order) == multiset(ids)
  {
    order := [];
    for k := 0 to |ids|
      invariant SortedBy(order, before) && multiset(order) == multiset(ids[..k])
    {
      assert ids[..k + 1] == ids[..k] + [ids[k]];
      order := InsertBy(order, ids[k], before);
    }
    assert ids[..|ids|] == ids;
  }

  method InsertBy(order: seq<Id>, id: Id, before: (Id, Id) -> bool) returns (longer: seq<Id>)
    requires Orders(before) && SortedBy(order, before)
    ensures SortedBy(longer, before) && multiset(longer) == multiset(order + [id])
  {
    hide Orders, SortedBy;
    var at := |order|;
    while at > 0 && !before(order[at - 1], id)
      invariant 0 <= at <= |order|
      invariant forall j :: at <= j < |order| ==> before(id, order[j])
    {
      EitherWay(before, order[at - 1], id);
      at := at - 1;
    }
    longer := order[..at] + [id] + order[at..];
    assert order == order[..at] + order[at..];
    InsertSorted(order, id, at, before);
  }

  lemma InsertSorted(order: seq<Id>, id: Id, at: nat, before: (Id, Id) -> bool)
    requires Orders(before) && SortedBy(order, before) && at <= |order|
    requires at > 0 ==> before(order[at - 1], id)
    requires forall j :: at <= j < |order| ==> before(id, order[j])
    ensures SortedBy(order[..at] + [id] + order[at..], before)
  {
    var longer := order[..at] + [id] + order[at..];
    forall i, j | 0 <= i < j < |longer| ensures before(longer[i], longer[j]) {
      assert i < at ==> longer[i] == order[i];
      assert j > at ==> longer[j] == order[j - 1];
      assert i > at ==> longer[i] == order[i - 1];
      assert j < at ==> longer[j] == order[j];
      if i < at - 1 && j == at {
        assert before(order[i], order[at - 1]);
      }
    }
  }

  lemma SameMembers(a: seq<Id>, b: seq<Id>)
    requires multiset(a) == multiset(b)
    ensures forall id :: id in a <==> id in b
  {
    assert forall id :: id in a <==> id in multiset(a);
    assert forall id :: id in b <==> id in multiset(b);
  }

  lemma SameDistinct(a: seq<Id>, b: seq<Id>)
    requires multiset(a) == multiset(b) && Distinct(a)
    ensures Distinct(b)
  {
    forall i, j | 0 <= i < j < |b| ensures b[i] != b[j] {
      if b[i] == b[j] {
        TwiceCounted(b, i, j);
        OnceCounted(a, b[i]);
      }
    }
  }

  /** A sort of distinct ids: the same ids, each once. */
  method SortDistinct(ids: seq<Id>, before: (Id, Id) -> bool) returns (order: seq<Id>)
    requires Orders(before) && Distinct(ids)
    ensures SortedBy(order, before) && Distinct(order)
    ensures forall id :: id in order <==> id in ids
  {
    order := SortBy(ids, before);
    SameMembers(ids, order);
    SameDistinct(ids, order);
  }

  /** The rows among `ids` that are active, or that are not. */
  method Pick(rows: map<Id, Row>, ids: seq<Id>, active: bool) returns (picked: seq<Id>)
    requires Distinct(ids) && forall id :: id in ids ==> id in rows
    ensures Distinct(picked) && forall id :: id in picked <==> id in ids && IsActive(rows[id].status) == active
  {
    picked := [];
    for k := 0 to |ids|
      invariant Distinct(picked)
      invariant forall id :: id in picked <==> id in ids[..k] && IsActive(rows[id].status) == active
    {
      assert ids[..k + 1] == ids[..k] + [ids[k]] && ids[k] !in ids[..k];
      if IsActive(rows[ids[k]].status) == active {
        picked := picked + [ids[k]];
      }
    }
    assert ids[..|ids|] == ids;
  }

  /** The entries that come back finished: read so, or recorded failed now. */
  method PickDone(c: Config, rows: map<Id, Row>, ids: seq<Id>) returns (done: seq<Id>)
    requires Distinct(ids) && forall id :: id in ids ==> id in rows
    ensures Distinct(done)
    ensures forall id :: id in done <==> id in ids && !IsActive(RestoredStatus(c, rows[id].status))
  {
    done := [];
    for k := 0 to |ids|
      invariant Distinct(done)
      invariant forall id :: id in done <==> id in ids[..k] && !IsActive(RestoredStatus(c, rows[id].status))
    {
      assert ids[..k + 1] == ids[..k] + [ids[k]] && ids[k] !in ids[..k];
      if !IsActive(RestoredStatus(c, rows[ids[k]].status)) {
        done := done + [ids[k]];
      }
    }
    assert ids[..|ids|] == ids;
  }

  lemma JoinDistinct(a: seq<Id>, b: seq<Id>)
    requires Distinct(a) && Distinct(b) && forall id :: id in a ==> id !in b
    ensures Distinct(a + b)
  {
    forall i, j | 0 <= i < j < |a + b| ensures (a + b)[i] != (a + b)[j] {
      assert i < |a| ==> (a + b)[i] in a;
      assert j >= |a| ==> (a + b)[j] in b;
    }
  }

  lemma SortsOrder(rows: map<Id, Row>, at: map<Id, nat>)
    ensures Orders(Numbering(rows)) && Orders(NewestFirst(at)) && Orders(OldestFirst(at))
  {
  }

  lemma NumberedIsOrder(rows: map<Id, Row>, order: seq<Id>)
    requires Distinct(order) && SortedBy(order, Numbering(rows)) && forall id :: id in order ==> id in rows
    requires forall id :: id in rows && IsActive(rows[id].status) ==> id in order
    ensures IsRestoreOrder(rows, order)
  {
    forall i, j | 0 <= i < j < |order| ensures SortsBefore(rows[order[i]].payment, rows[order[j]].payment) {
      assert Numbering(rows)(order[i], order[j]);
    }
  }

  /**
   * restoredRows and the two sorts of the constructor. `listed` is the rows as
   * storage lists them; `at` the time each finished or, if a start finds it
   * dispatching and cannot ask, the time it is recorded failed.
   */
  method ReadRows(c: Config, rows: map<Id, Row>, at: map<Id, nat>, listed: seq<Id>)
    returns (order: seq<Id>, history: seq<Id>, done: seq<Id>)
    requires Distinct(listed) && forall id :: id in listed <==> id in rows
    ensures Reads(c, rows, at, order, history, done)
  {
    hide Orders, Numbering, NewestFirst, OldestFirst, SortedBy, Distinct, IsRestoreOrder;
    SortsOrder(rows, at);
    var active := Pick(rows, listed, true);
    var finished := Pick(rows, listed, false);
    history := SortDistinct(finished, NewestFirst(at));
    var recent := FirstOf(history, c.keep);
    FirstDistinct(history, c.keep);
    JoinDistinct(active, recent);
    order := SortDistinct(active + recent, Numbering(rows));
    NumberedIsOrder(rows, order);
    done := PickDone(c, rows, order);
    done := SortDistinct(done, OldestFirst(at));
  }

  lemma FirstDistinct(s: seq<Id>, keep: Option<nat>)
    requires Distinct(s)
    ensures Distinct(FirstOf(s, keep)) && forall id :: id in FirstOf(s, keep) ==> id in s
  {
  }

  lemma TwiceCounted(s: seq<Id>, i: nat, j: nat)
    requires i < j < |s| && s[i] == s[j]
    ensures multiset(s)[s[i]] >= 2
  {
    assert s == s[..i] + [s[i]] + s[i + 1..j] + [s[j]] + s[j + 1..];
  }

  lemma {:induction false} OnceCounted(s: seq<Id>, id: Id)
    requires forall i, j :: 0 <= i < j < |s| ==> s[i] != s[j]
    ensures multiset(s)[id] <= 1
  {
    if s != [] {
      OnceCounted(s[1..], id);
      assert s == [s[0]] + s[1..];
      assert s[0] !in s[1..];
    }
  }

  /** The queue's fields, held in one record, and what it has done to the outside. */
  class Payments {
    const c: Config
    var q: Queue
    ghost var effects: seq<Effect>
    ghost var order: seq<Id>
    ghost var history: seq<Id>
    ghost var done: seq<Id>

    /** Restores what storage holds, in whatever order it lists its rows. */
    constructor (config: Config, rows: map<Id, Row>, at: map<Id, nat>, listed: seq<Id>)
      requires Distinct(listed) && forall id :: id in listed <==> id in rows
      ensures c == config && Reads(c, rows, at, order, history, done)
      ensures q == Restore(config, rows, order, done).0
      ensures effects == Restore(config, rows, order, done).1
    {
      c := config;
      q := Empty();
      effects := [Boot];
      order, history, done := [], [], [];
      new;
      var numbered, newest, oldest := ReadRows(config, rows, at, listed);
      order, history, done := numbered, newest, oldest;
      hide IsRestoreOrder;
      if config.storage {
        RestoreRows(rows, numbered);
        RetireDone(rows, numbered, oldest);
      }
    }

    method RestoreRows(rows: map<Id, Row>, order: seq<Id>)
      requires c.storage && IsRestoreOrder(rows, order) && q == Empty() && effects == [Boot]
      modifies this`q, this`effects
      ensures q == Restore(c, rows, order, []).0 && effects == Restore(c, rows, order, []).1
    {
      RestoreNothing(c, rows);
      hide Restore;
      for i := 0 to |order|
        invariant order[..i] <= order && forall id :: id in order[..i] ==> id in rows
        invariant q == Restore(c, rows, order[..i], []).0
        invariant effects == Restore(c, rows, order[..i], []).1
      {
        var id := order[i];
        assert id !in order[..i] && order[..i + 1] == order[..i] + [id];
        RestoreOneMore(c, rows, order[..i], id);
        RestoreRow(id, rows[id]);
      }
      assert order[..|order|] == order;
    }

    /** The finished rows join the history, oldest first. */
    method RetireDone(rows: map<Id, Row>, order: seq<Id>, done: seq<Id>)
      requires c.storage && IsRestoreOrder(rows, order)
      requires forall id :: id in done ==> id in order && !IsActive(RestoredStatus(c, rows[id].status))
      requires q == Restore(c, rows, order, []).0 && effects == Restore(c, rows, order, []).1
      modifies this`q, this`effects
      ensures q == Restore(c, rows, order, done).0 && effects == Restore(c, rows, order, done).1
    {
      hide Restore, LastOf, PaymentQueue.Retire, RestoredStatus, IsActive;
      RestoredDone(c, rows, order, done);
      ghost var before := q;
      assert q == before.(finished := LastOf(done[..0], c.keep));
      for k := 0 to |done|
        invariant q == before.(finished := LastOf(done[..k], c.keep))
        invariant effects == Restore(c, rows, order, done).1
      {
        RetiresNext(c, before, done, k);
        Retire(done[k], false);
      }
      assert done[..|done|] == done;
    }

    /** One row of the constructor's loop. */
    method RestoreRow(id: Id, row: Row)
      modifies this`q, this`effects
      ensures q == RestoredRow(c, old(q), id, row).0
      ensures effects == old(effects) + RestoredRow(c, old(q), id, row).1
    {
      q := q.(info := q.info[id := Info(row.payment, q.nextSequence)], nextSequence := q.nextSequence + 1,
              status := q.status[id := row.status]);
      if row.status == Queued {
        q := q.(active := q.active + {id}, pending := q.pending + [id], restored := q.restored + {id});
      } else if row.status == Dispatching {
        if c.resolver {
          q := q.(active := q.active + {id}, restored := q.restored + {id}, interrupted := q.interrupted + {id});
        } else {
          q := q.(status := q.status[id := Failed]);
          effects := effects + [Write(id, Failed)];
        }
      }
    }

    method Retire(id: Id, unknown: bool)
      modifies this`q
      ensures q == PaymentQueue.Retire(c, old(q), id, unknown)
    {
      q := q.(active := q.active - {id});
      if !c.storage && unknown {
        q := q.(unknownOutcomes := q.unknownOutcomes + {id});
      } else {
        var kept := DropOldest(q.finished + [id], c.keep);
        q := q.(finished := kept);
      }
    }

    method RecordFailed(id: Id)
      modifies this
      ensures q == PaymentQueue.RecordFailed(c, old(q), id).0
      ensures effects == old(effects) + PaymentQueue.RecordFailed(c, old(q), id).1
    {
      q := q.(status := q.status[id := Failed]);
      effects := effects + [Write(id, Failed)];
      Retire(id, false);
    }

    method DispatchAt(index: nat)
      requires index < |q.pending|
      modifies this
      ensures q == Dispatch(old(q), index).0
      ensures effects == old(effects) + Dispatch(old(q), index).1
    {
      var next := q.pending[index];
      q := q.(pending := RemoveAt(q.pending, index));
      q := q.(status := q.status[next := Dispatching]);
      q := q.(activeCount := q.activeCount + 1);
      effects := effects + [Write(next, Dispatching), Call(next)];
      q := q.(running := q.running + {next});
    }

    /** The loop of one pass; `answers` are canSend's. */
    method ProcessQueue(answers: seq<bool>)
      requires forall id :: id in q.pending ==> id in q.info
      modifies this
      ensures q == Pass(c, old(q), answers).0
      ensures effects == old(effects) + Pass(c, old(q), answers).1
    {
      hide Pass, PaymentQueue.RecordFailed, Dispatch, PaymentQueue.RemoveAt;
      var said := answers;
      ghost var goal := Pass(c, q, answers);
      while !q.stopped && q.activeCount < c.maxConcurrent
        invariant forall id :: id in q.pending ==> id in q.info
        invariant goal.0 == Pass(c, q, said).0
        invariant effects + Pass(c, q, said).1 == old(effects) + goal.1
        decreases |q.pending|
      {
        ghost var was, had, before := q, said, effects;
        var index := FindReleased(q.pending, q.restored);
        if index == |q.pending| { break; }
        var next := q.pending[index];
        var payment := q.info[next].payment;
        if payment.amount.Malformed? {
          q := q.(pending := RemoveAt(q.pending, index));
          RecordFailed(next);
        } else {
          if AmountToCheck(payment) > 0 {
            if said == [] || !said[0] { break; }
            said := said[1..];
          }
          DispatchAt(index);
        }
        PassTurns(c, was, had);
        Regroup(before, Turn(c, was, had).1, Pass(c, q, said).1);
      }
      PassStops(c, q, said);
    }

    /** reconcileInterrupted; `refused` when the resolver throws at once. */
    method Reconcile(id: Id, onUnpaid: OnUnpaid, refused: bool)
      modifies this`q
      ensures q == Ask(c, old(q), id, onUnpaid, refused)
    {
      hide Ask;
      AskIs(c, q, id, onUnpaid, refused);
      if !c.resolver { return; }
      q := q.(awaitingOutcome := q.awaitingOutcome - {id});
      if refused {
        q := q.(awaitingOutcome := q.awaitingOutcome[id := onUnpaid]);
        assert q.awaitingOutcome == old(q).awaitingOutcome[id := onUnpaid];
      } else {
        q := q.(asks := q.asks[id := onUnpaid]);
      }
    }

    method ReconcileAll(waiting: map<Id, OnUnpaid>, refusals: set<Id>)
      modifies this`q
      ensures q == AskAll(c, old(q), waiting, refusals)
    {
      hide AskAll, Ask;
      ghost var asked: map<Id, OnUnpaid> := map[];
      AskNothing(c, q, refusals);
      var rest := waiting.Keys;
      while rest != {}
        invariant rest <= waiting.Keys && asked == map id | id in waiting && id !in rest :: waiting[id]
        invariant q == AskAll(c, old(q), asked, refusals)
      {
        var id :| id in rest;
        rest := rest - {id};
        AskOneMore(c, old(q), asked, refusals, id, waiting[id]);
        Reconcile(id, waiting[id], id in refusals);
        asked := asked[id := waiting[id]];
      }
      assert asked == waiting;
    }

    method Resettle(refusals: set<Id>)
      modifies this`q
      ensures q == PaymentQueue.Resettle(c, old(q), refusals)
    {
      if q.stopped { return; }
      var waiting := q.awaitingOutcome;
      q := q.(awaitingOutcome := map[]);
      ReconcileAll(waiting, refusals);
    }

    method Start(refusals: set<Id>, answers: seq<bool>)
      requires forall id :: id in q.pending ==> id in q.info
      modifies this
      ensures q == PaymentQueue.Start(c, old(q), refusals, answers).0
      ensures effects == old(effects) + PaymentQueue.Start(c, old(q), refusals, answers).1
    {
      hide Pass;
      if q.stopped || q.started { return; }
      var left := map id | id in q.interrupted && id in q.active :: Requeue;
      q := q.(started := true, restored := {}, interrupted := {});
      Resettle(refusals);
      ReconcileAll(left, refusals);
      ProcessQueue(answers);
    }

    method Poke(answers: seq<bool>)
      requires forall id :: id in q.pending ==> id in q.info
      modifies this
      ensures q == PaymentQueue.Poke(c, old(q), answers).0
      ensures effects == old(effects) + PaymentQueue.Poke(c, old(q), answers).1
    {
      if !q.started || q.stopped { return; }
      ProcessQueue(answers);
    }

    method Stop()
      modifies this`q
      ensures q == old(q).(stopped := true)
    {
      q := q.(stopped := true);
    }

    method AddPending(id: Id)
      requires InDispatchOrder(q.info, q.pending) && id in q.info
      modifies this`q
      ensures q == old(q).(pending := InsertPending(old(q).info, old(q).pending, id))
    {
      var low := PendingIndex(q.info, q.pending, id);
      q := q.(pending := q.pending[..low] + [id] + q.pending[low..]);
    }

    /** False for the INVALID_PARAMS refusals, which change nothing. */
    method Enqueue(id: Id, invoice: string, payment: Payment, answers: seq<bool>) returns (taken: bool)
      requires Valid(c, q) && id !in q.info
      modifies this
      ensures taken <==> invoice != "" && 1.0 <= payment.priority <= 10.0 && !payment.amount.Malformed?
      ensures !taken ==> q == old(q) && effects == old(effects)
      ensures taken ==> q == PaymentQueue.Enqueue(c, old(q), id, payment, answers).0
      ensures taken ==> effects == old(effects) + PaymentQueue.Enqueue(c, old(q), id, payment, answers).1
    {
      hide Pass, InsertPending, Valid, InDispatchOrder;
      AdmitReady(c, q, id, payment);
      if invoice == "" || !(1.0 <= payment.priority <= 10.0) || payment.amount.Malformed? { return false; }
      q := q.(info := q.info[id := Info(payment, q.nextSequence)], nextSequence := q.nextSequence + 1,
              status := q.status[id := Queued]);
      q := q.(active := q.active + {id});
      InsertPendingMembers(q.info, q.pending, id);
      AddPending(id);
      effects := effects + [Save(id, payment)];
      ghost var mid := q;
      ProcessQueue(answers);
      Regroup(old(effects), [Save(id, payment)], Pass(c, mid, answers).1);
      return true;
    }

    method Cancel(id: Id) returns (cancelled: bool)
      modifies this
      ensures q == PaymentQueue.Cancel(old(q), id).0
      ensures effects == old(effects) + PaymentQueue.Cancel(old(q), id).1
      ensures cancelled <==> id in old(q).active && Is(old(q).status, id, Queued)
    {
      if id !in q.active || id !in q.status || q.status[id] != Queued { return false; }
      q := q.(status := q.status[id := Cancelled]);
      q := q.(active := q.active - {id});
      q := q.(pending := Without(q.pending, id));
      effects := effects + [Write(id, Cancelled)];
      return true;
    }

    /** What dispatchPayment does once the payer has answered. */
    method EndDispatch(id: Id, result: PayResult, refused: bool, answers: seq<bool>)
      requires id in q.running && q.activeCount > 0 && Is(q.status, id, Dispatching)
      requires forall x :: x in q.pending ==> x in q.info
      modifies this
      ensures q == PaymentQueue.EndDispatch(c, old(q), id, result, refused, answers).0
      ensures effects == old(effects) + PaymentQueue.EndDispatch(c, old(q), id, result, refused, answers).1
    {
      hide Pass, Ask, LastOf, Ended, EndStatus;
      FreeSlot(id, result, refused);
      ghost var mid := q;
      ProcessQueue(answers);
      Regroup(old(effects), [Write(id, EndStatus(c, result))], Pass(c, mid, answers).1);
    }

    /** The entry's new status, and its slot given back. */
    method FreeSlot(id: Id, result: PayResult, refused: bool)
      requires id in q.running && q.activeCount > 0 && Is(q.status, id, Dispatching)
      modifies this
      ensures q == Ended(c, old(q), id, result, refused)
      ensures effects == old(effects) + [Write(id, EndStatus(c, result))]
    {
      hide Ask, LastOf;
      var stillOut := result == StillPending && c.resolver;
      var status := if result == PaidOk then Completed else if stillOut then Dispatching else Failed;
      if !stillOut { q := q.(status := q.status[id := status]); }
      assert q.status == old(q).status[id := status];
      effects := effects + [Write(id, status)];
      if !stillOut { Retire(id, result == StillPending); }
      q := q.(activeCount := q.activeCount - 1, running := q.running - {id});
      if stillOut { Reconcile(id, Fail, refused); }
    }

    /** What recordInterruptedOutcome does with the resolver's answer. */
    method Answer(id: Id, onUnpaid: OnUnpaid, verdict: Verdict, answers: seq<bool>)
      requires id in q.asks && q.asks[id] == onUnpaid && id in q.info && InDispatchOrder(q.info, q.pending)
      modifies this
      ensures q == PaymentQueue.Answer(c, old(q), id, verdict, answers).0
      ensures effects == old(effects) + PaymentQueue.Answer(c, old(q), id, verdict, answers).1
    {
      hide Pass, LastOf, InsertPending;
      q := q.(asks := q.asks - {id});
      if id !in q.status || q.status[id] != Dispatching { return; }
      match verdict {
        case WasCompleted =>
          q := q.(status := q.status[id := Completed]);
          effects := effects + [Write(id, Completed)];
          Retire(id, false);
        case WasUnclear =>
          q := q.(unclear := q.unclear + {id});
        case WasUnpaid =>
          if onUnpaid == Fail {
            effects := effects + [Unpaid(id)];
            RecordFailed(id);
            Regroup(old(effects), [Unpaid(id)], [Write(id, Failed)]);
          } else {
            q := q.(status := q.status[id := Queued]);
            InsertPendingMembers(q.info, q.pending, id);
            AddPending(id);
            effects := effects + [Unpaid(id), Write(id, Queued)];
            ghost var mid := q;
            ProcessQueue(answers);
            Regroup(old(effects), [Unpaid(id), Write(id, Queued)], Pass(c, mid, answers).1);
          }
      }
    }

    /** `listed`: what the walk over storage's finished rows found. */
    method Prune(listed: set<Id>) returns (removed: nat, ghost order: seq<Id>)
      modifies this
      ensures var gone := Removed(old(q), if c.storage then listed else {});
        Enumerates(order, gone) && removed == |gone|
      ensures q == old(q).(finished := [], unknownOutcomes := {})
      ensures q == PaymentQueue.Prune(c, old(q), order).0
      ensures effects == old(effects) + PaymentQueue.Prune(c, old(q), order).1
    {
      var ids := (set id | id in q.finished) + q.unknownOutcomes;
      q := q.(finished := [], unknownOutcomes := {});
      if c.storage {
        var more := DropActive(listed, q.active);
        ids := ids + more;
      }
      removed := |ids|;
      assert ids == Removed(old(q), if c.storage then listed else {});
      order := DeleteEach(ids);
    }

    method DeleteEach(ids: set<Id>) returns (ghost order: seq<Id>)
      modifies this`effects
      ensures Enumerates(order, ids)
      ensures effects == old(effects) + if c.storage then Deletes(order) else []
    {
      order := [];
      var rest := ids;
      while rest != {}
        invariant rest <= ids && Enumerates(order, ids - rest)
        invariant effects == old(effects) + if c.storage then Deletes(order) else []
      {
        var id :| id in rest;
        ghost var listed := set x | x in order;
        assert id !in listed;
        EnumeratesMore(order, id);
        assert ids - (rest - {id}) == (ids - rest) + {id};
        rest := rest - {id};
        DeletesAppend(order, id);
        order := order + [id];
        if c.storage { effects := effects + [Delete(id)]; }
      }
    }

    /** The resolver rejects: the entry waits for start() or resettle(). */
    method Refuse(id: Id, onUnpaid: OnUnpaid)
      requires id in q.asks && q.asks[id] == onUnpaid
      modifies this`q
      ensures q == PaymentQueue.Refuse(old(q), id)
    {
      q := q.(asks := q.asks - {id});
      if id in q.status && q.status[id] == Dispatching {
        q := q.(awaitingOutcome := q.awaitingOutcome[id := onUnpaid]);
      }
    }
  }

  ghost function RestoredRow(c: Config, q: Queue, id: Id, row: Row): (Queue, seq<Effect>) {
    var live := IsActive(RestoredStatus(c, row.status));
    (q.(info := q.info[id := Info(row.payment, q.nextSequence)], nextSequence := q.nextSequence + 1,
        status := q.status[id := RestoredStatus(c, row.status)],
        active := if live then q.active + {id} else q.active,
        restored := if live then q.restored + {id} else q.restored,
        pending := if row.status == Queued then q.pending + [id] else q.pending,
        interrupted := if c.resolver && row.status == Dispatching then q.interrupted + {id} else q.interrupted),
     if row.status == Dispatching && !c.resolver then [Write(id, Failed)] else [])
  }

  lemma {:induction false} QueuedInAppend(rows: map<Id, Row>, order: seq<Id>, id: Id)
    requires (forall x :: x in order ==> x in rows) && id in rows
    ensures QueuedIn(rows, order + [id]) == QueuedIn(rows, order) + (if rows[id].status == Queued then [id] else [])
  {
    if order == [] {
      assert order + [id] == [id] && [id][1..] == [];
    } else {
      QueuedInAppend(rows, order[1..], id);
      var head := if rows[order[0]].status == Queued then [order[0]] else [];
      var last := if rows[id].status == Queued then [id] else [];
      assert (order + [id])[0] == order[0] && (order + [id])[1..] == order[1..] + [id];
      assert QueuedIn(rows, order + [id]) == head + QueuedIn(rows, order[1..] + [id]);
      assert QueuedIn(rows, order) == head + QueuedIn(rows, order[1..]);
    }
  }

  lemma {:induction false} FailsInAppend(c: Config, rows: map<Id, Row>, order: seq<Id>, id: Id)
    requires (forall x :: x in order ==> x in rows) && id in rows
    ensures FailsIn(c, rows, order + [id]) == FailsIn(c, rows, order)
            + (if rows[id].status == Dispatching && !c.resolver then [Write(id, Failed)] else [])
  {
    if order != [] {
      FailsInAppend(c, rows, order[1..], id);
      assert (order + [id])[1..] == order[1..] + [id];
    } else {
      assert order + [id] == [id] && [id][1..] == [];
    }
  }

  lemma {:induction false} IndexOfAppend(order: seq<Id>, id: Id, x: Id)
    requires id !in order && (x in order || x == id)
    ensures IndexOf(order + [id], x) == if x in order then IndexOf(order, x) else |order|
  {
    if order != [] && order[0] != x {
      IndexOfAppend(order[1..], id, x);
      assert (order + [id])[1..] == order[1..] + [id];
    }
  }

  lemma RestoreNothing(c: Config, rows: map<Id, Row>)
    requires c.storage
    ensures Restore(c, rows, [], []) == (Empty(), [Boot])
  {
    var q := Restore(c, rows, [], []).0;
    assert q.info == map[] && q.status == map[] && q.active == {} && q.interrupted == {};
    assert [Boot] + [] == [Boot];
  }

  lemma RestoreOneMoreInfo(c: Config, rows: map<Id, Row>, order: seq<Id>, id: Id)
    requires (forall x :: x in order ==> x in rows) && id in rows && id !in order && c.storage
    ensures var q, q' := Restore(c, rows, order, []).0, Restore(c, rows, order + [id], []).0;
            q'.info == q.info[id := Info(rows[id].payment, |order|)]
  {
    hide QueuedIn, FailsIn, LastOf, IndexOf, RestoredStatus, IsActive;
    var more := order + [id];
    assert forall x :: x in more <==> x in order || x == id;
    forall x | x in more ensures IndexOf(more, x) == if x in order then IndexOf(order, x) else |order| {
      IndexOfAppend(order, id, x);
    }
  }

  lemma RestoreOneMoreTables(c: Config, rows: map<Id, Row>, order: seq<Id>, id: Id)
    requires (forall x :: x in order ==> x in rows) && id in rows && id !in order && c.storage
    ensures var q, q' := Restore(c, rows, order, []).0, Restore(c, rows, order + [id], []).0;
            var live := IsActive(RestoredStatus(c, rows[id].status));
            && q'.status == q.status[id := RestoredStatus(c, rows[id].status)]
            && q'.active == (if live then q.active + {id} else q.active)
            && q'.interrupted == (if c.resolver && rows[id].status == Dispatching then q.interrupted + {id} else q.interrupted)
  {
    hide QueuedIn, FailsIn, LastOf, IndexOf, RestoredStatus, IsActive;
    var more := order + [id];
    assert forall x :: x in more <==> x in order || x == id;
  }

  lemma RestoreOneMore(c: Config, rows: map<Id, Row>, order: seq<Id>, id: Id)
    requires (forall x :: x in order ==> x in rows) && id in rows && id !in order && c.storage
    ensures var (q, es) := Restore(c, rows, order, []);
            var (q', es') := RestoredRow(c, q, id, rows[id]);
            Restore(c, rows, order + [id], []) == (q', es + es')
  {
    RestoreOneMoreInfo(c, rows, order, id);
    RestoreOneMoreTables(c, rows, order, id);
    QueuedInAppend(rows, order, id);
    FailsInAppend(c, rows, order, id);
    hide QueuedIn, FailsIn, IndexOf;
    var (q, es) := Restore(c, rows, order, []);
    var (q2, es2) := Restore(c, rows, order + [id], []);
    Regroup([Boot], FailsIn(c, rows, order), RestoredRow(c, q, id, rows[id]).1);
    assert LastOf([], c.keep) == [];
    assert q2.restored == q2.active && q.restored == q.active;
    assert q2 == RestoredRow(c, q, id, rows[id]).0;
  }

  lemma RetiresNext(c: Config, q: Queue, done: seq<Id>, k: nat)
    requires k < |done| && done[k] !in q.active
    ensures Retire(c, q.(finished := LastOf(done[..k], c.keep)), done[k], false)
      == q.(finished := LastOf(done[..k + 1], c.keep))
  {
    assert done[..k + 1] == done[..k] + [done[k]];
    RetainsLast(done[..k], c.keep, done[k]);
    assert q.active - {done[k]} == q.active;
  }

  lemma RestoredDone(c: Config, rows: map<Id, Row>, order: seq<Id>, done: seq<Id>)
    requires (forall x :: x in order ==> x in rows) && c.storage
    requires forall id :: id in done ==> id in order && !IsActive(RestoredStatus(c, rows[id].status))
    ensures Restore(c, rows, order, done).0 == Restore(c, rows, order, []).0.(finished := LastOf(done, c.keep))
    ensures Restore(c, rows, order, done).1 == Restore(c, rows, order, []).1
    ensures LastOf(done[..0], c.keep) == [] && Restore(c, rows, order, []).0.finished == []
    ensures forall id :: id in done ==> id !in Restore(c, rows, order, []).0.active
  {
    hide QueuedIn, FailsIn, IndexOf;
  }

  lemma AdmitReady(c: Config, q: Queue, id: Id, p: Payment)
    requires Valid(c, q) && id !in q.info
    ensures InDispatchOrder(q.info[id := Info(p, q.nextSequence)], q.pending)
    ensures forall x :: x in q.pending ==> x in q.info
  {
    hide OneOwner, HistoryOk, SlotsExact, PendingExact, ActiveExact;
  }

  lemma AskNothing(c: Config, q: Queue, refusals: set<Id>)
    ensures AskAll(c, q, map[], refusals) == q
  {
    var none: map<Id, OnUnpaid> := map[];
    assert Only(none, refusals) == none && none - refusals == none;
    assert q.awaitingOutcome - none.Keys == q.awaitingOutcome;
  }

  lemma AskSingle(w: map<Id, OnUnpaid>, id: Id, u: OnUnpaid)
    ensures var one := map[id := u];
            && (w - one.Keys) + Only(one, {id}) == w[id := u]
            && (w - one.Keys) + Only(one, {}) == w - {id}
            && w + (one - {id}) == w && w + (one - {}) == w[id := u]
  {
    var one := map[id := u];
    assert one.Keys == {id};
    assert Only(one, {id}) == one && Only(one, {}) == map[];
    assert one - {id} == map[] && one - {} == one;
  }

  lemma AskIs(c: Config, q: Queue, id: Id, u: OnUnpaid, refused: bool)
    ensures Ask(c, q, id, u, refused) ==
            if !c.resolver then q
            else if refused then q.(awaitingOutcome := q.awaitingOutcome[id := u])
            else q.(awaitingOutcome := q.awaitingOutcome - {id}, asks := q.asks[id := u])
  {
    hide Only;
    AskSingle(q.awaitingOutcome, id, u);
    AskSingle(q.asks, id, u);
  }

  lemma AskMoreAwaiting(w: map<Id, OnUnpaid>, asks: map<Id, OnUnpaid>, refusals: set<Id>, id: Id, u: OnUnpaid)
    requires id !in asks
    ensures var w1 := (w - asks.Keys) + Only(asks, refusals);
            (w - asks[id := u].Keys) + Only(asks[id := u], refusals) == if id in refusals then w1[id := u] else w1 - {id}
  {
    var more := asks[id := u];
    assert more.Keys == asks.Keys + {id};
    assert Only(more, refusals) == if id in refusals then Only(asks, refusals)[id := u] else Only(asks, refusals);
  }

  lemma AskMoreAsks(w: map<Id, OnUnpaid>, asks: map<Id, OnUnpaid>, refusals: set<Id>, id: Id, u: OnUnpaid)
    requires id !in asks
    ensures w + (asks[id := u] - refusals) ==
            if id in refusals then w + (asks - refusals) else (w + (asks - refusals))[id := u]
  {
    assert asks[id := u] - refusals == if id in refusals then asks - refusals else (asks - refusals)[id := u];
  }

  /** Asking one more entry adds it to the asks made so far. */
  lemma AskOneMore(c: Config, q: Queue, asks: map<Id, OnUnpaid>, refusals: set<Id>, id: Id, onUnpaid: OnUnpaid)
    requires id !in asks
    ensures Ask(c, AskAll(c, q, asks, refusals), id, onUnpaid, id in refusals)
            == AskAll(c, q, asks[id := onUnpaid], refusals)
  {
    hide Only;
    var q1 := AskAll(c, q, asks, refusals);
    AskSingle(q1.awaitingOutcome, id, onUnpaid);
    AskSingle(q1.asks, id, onUnpaid);
    AskMoreAwaiting(q.awaitingOutcome, asks, refusals, id, onUnpaid);
    AskMoreAsks(q.asks, asks, refusals, id, onUnpaid);
  }

  lemma Regroup(a: seq<Effect>, b: seq<Effect>, c: seq<Effect>)
    ensures (a + b) + c == a + (b + c)
  {
  }
}
