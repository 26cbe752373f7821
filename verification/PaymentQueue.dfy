/**
 * The payment queue of src/cli/payment-queue.ts.
 *
 * Each operation is a function from the queue to the queue and to the effects
 * it has outside, in order: rows written, payer calls made, resolver answers
 * consumed. A crash may fall after any effect. The theorems are about every
 * history of effects over any number of processes.
 */
module PaymentQueue {

  type Id = nat

  datatype Status = Queued | Dispatching | Completed | Failed | Cancelled

  predicate IsActive(s: Status) {
    s == Queued || s == Dispatching
  }

  /** `amountSats` as stored: rows older than the check on enqueue may hold anything. */
  datatype Amount = Absent | Whole(sats: nat) | Malformed

  /** What a row keeps besides its status. `invoiceSats` is what the owner decodes, 0 for nothing. */
  datatype Payment = Payment(priority: real, amount: Amount, invoiceSats: nat, createdAt: nat, counter: nat)

  datatype Info = Info(payment: Payment, sequence: nat)

  /** What an 'unpaid' answer leads to. */
  datatype OnUnpaid = Requeue | Fail

  datatype Option<T> = None | Some(value: T)

  /** `keep` is maxRetainedHistory, None for Infinity. */
  datatype Config = Config(maxConcurrent: nat, keep: Option<nat>, resolver: bool, storage: bool)

  /**
   * The queue in memory. `running`, `asks` and `unclear` are the suspended
   * continuations: dispatches awaiting the payer, asks awaiting the resolver,
   * and asks whose answer was neither 'completed' nor 'unpaid'.
   */
  datatype Queue = Queue(
    info: map<Id, Info>,
    status: map<Id, Status>,
    active: set<Id>,
    pending: seq<Id>,
    finished: seq<Id>,
    unknownOutcomes: set<Id>,
    nextSequence: nat,
    activeCount: nat,
    started: bool,
    stopped: bool,
    interrupted: set<Id>,
    restored: set<Id>,
    awaitingOutcome: map<Id, OnUnpaid>,
    running: set<Id>,
    asks: map<Id, OnUnpaid>,
    unclear: set<Id>)

  // ----- effects -----

  datatype Effect =
    | Boot
    | Save(id: Id, payment: Payment)
    | Write(id: Id, status: Status)
    | Call(id: Id)      // payInvoiceSafe
    | Unpaid(id: Id)    // the resolver's 'unpaid', acted on
    | Delete(id: Id)

  datatype Row = Row(payment: Payment, status: Status)

  /**
   * What a history leaves behind: the rows, the ids ever saved, the entries
   * sent and not since answered 'unpaid', and those sent by this process.
   */
  datatype Ledger = Ledger(rows: map<Id, Row>, seen: set<Id>, open: set<Id>, sentHere: set<Id>)

  function Apply(l: Ledger, e: Effect): (l': Ledger) {
    match e
    case Boot => l.(sentHere := {})
    case Save(id, p) => l.(rows := l.rows[id := Row(p, Queued)], seen := l.seen + {id})
    case Write(id, s) => if id in l.rows then l.(rows := l.rows[id := l.rows[id].(status := s)]) else l
    case Call(id) => l.(open := l.open + {id}, sentHere := l.sentHere + {id})
    case Unpaid(id) => l.(open := l.open - {id})
    case Delete(id) => l.(rows := l.rows - {id})
  }

  function ApplyAll(l: Ledger, es: seq<Effect>): (l': Ledger)
    decreases |es|
  {
    if es == [] then l else ApplyAll(Apply(l, es[0]), es[1..])
  }

  predicate HasStatus(l: Ledger, id: Id, s: Status) {
    id in l.rows && l.rows[id].status == s
  }

  /** The moves an entry may make. A finished entry makes none. */
  predicate LegalMove(from: Status, to: Status) {
    match from
    case Queued => to == Dispatching || to == Cancelled || to == Failed
    case Dispatching => to != Cancelled
    case _ => false
  }

  /**
   * What may happen next. The payer is called only for an entry recorded
   * 'dispatching', not out, and not yet sent by this process.
   */
  predicate Allowed(l: Ledger, e: Effect) {
    match e
    case Boot => true
    case Save(id, p) => id !in l.seen
    case Write(id, s) => id in l.rows && LegalMove(l.rows[id].status, s) && (s == Queued ==> id !in l.open)
    case Call(id) => HasStatus(l, id, Dispatching) && id !in l.open && id !in l.sentHere
    case Unpaid(id) => HasStatus(l, id, Dispatching)
    case Delete(id) => id in l.rows ==> !IsActive(l.rows[id].status)
  }

  ghost predicate AllowedAll(l: Ledger, es: seq<Effect>)
    decreases |es|
  {
    es == [] || (Allowed(l, es[0]) && AllowedAll(Apply(l, es[0]), es[1..]))
  }

  lemma {:induction false} ApplyAllConcat(l: Ledger, xs: seq<Effect>, ys: seq<Effect>)
    ensures ApplyAll(l, xs + ys) == ApplyAll(ApplyAll(l, xs), ys)
    ensures AllowedAll(l, xs + ys) <==> AllowedAll(l, xs) && AllowedAll(ApplyAll(l, xs), ys)
    decreases |xs|
  {
    if xs == [] {
      assert xs + ys == ys;
    } else {
      assert (xs + ys)[1..] == xs[1..] + ys;
      ApplyAllConcat(Apply(l, xs[0]), xs[1..], ys);
    }
  }

  // ----- list order and the pending list -----

  predicate Precedes(a: Info, b: Info) {
    a.payment.priority < b.payment.priority
    || (a.payment.priority == b.payment.priority && a.sequence < b.sequence)
  }

  /** addPending: before the first entry that does not precede this one. */
  function InsertPending(info: map<Id, Info>, pending: seq<Id>, id: Id): (r: seq<Id>)
    requires id in info && forall p :: p in pending ==> p in info
  {
    if pending == [] || !Precedes(info[pending[0]], info[id]) then [id] + pending
    else [pending[0]] + InsertPending(info, pending[1..], id)
  }

  function RemoveAt(s: seq<Id>, i: nat): (r: seq<Id>)
    requires i < |s|
  {
    s[..i] + s[i + 1..]
  }

  /** The first pending entry start() has released, as an index. */
  function FirstReleased(pending: seq<Id>, restored: set<Id>): (i: nat)
    ensures i <= |pending|
    ensures i < |pending| ==> pending[i] !in restored
    ensures forall j :: 0 <= j < i ==> pending[j] in restored
  {
    if pending == [] || pending[0] !in restored then 0 else 1 + FirstReleased(pending[1..], restored)
  }

  // ----- retiring -----

  /** The last `keep` of a list. */
  function LastOf(s: seq<Id>, keep: Option<nat>): (r: seq<Id>) {
    if keep.None? || |s| <= keep.value then s else s[|s| - keep.value..]
  }

  /** An entry leaves `active` for the history, or for the unknown outcomes. */
  function Retire(c: Config, q: Queue, id: Id, unknown: bool): (q': Queue) {
    var left := q.(active := q.active - {id});
    if !c.storage && unknown then left.(unknownOutcomes := q.unknownOutcomes + {id})
    else left.(finished := LastOf(q.finished + [id], c.keep))
  }

  // ----- one pass -----

  function RecordFailed(c: Config, q: Queue, id: Id): (r: (Queue, seq<Effect>)) {
    (Retire(c, q.(status := q.status[id := Failed]), id, false), [Write(id, Failed)])
  }

  function Dispatch(q: Queue, i: nat): (r: (Queue, seq<Effect>))
    requires i < |q.pending|
  {
    var id := q.pending[i];
    (q.(pending := RemoveAt(q.pending, i), status := q.status[id := Dispatching],
        activeCount := q.activeCount + 1, running := q.running + {id}),
     [Write(id, Dispatching), Call(id)])
  }

  /** The amount the capacity check uses. */
  function AmountToCheck(p: Payment): (sats: nat) {
    if p.amount.Whole? then p.amount.sats else p.invoiceSats
  }

  /** processQueue: `answers` are what canSend says, call by call; a throw is a no. */
  function Pass(c: Config, q: Queue, answers: seq<bool>): (r: (Queue, seq<Effect>))
    requires forall id :: id in q.pending ==> id in q.info
    decreases |q.pending|
  {
    var i := FirstReleased(q.pending, q.restored);
    if q.stopped || q.activeCount >= c.maxConcurrent || i == |q.pending| then (q, [])
    else
      var id := q.pending[i];
      var p := q.info[id].payment;
      if p.amount.Malformed? then
        var (q1, es1) := RecordFailed(c, q.(pending := RemoveAt(q.pending, i)), id);
        var (q2, es2) := Pass(c, q1, answers);
        (q2, es1 + es2)
      else if AmountToCheck(p) > 0 && (answers == [] || !answers[0]) then (q, [])
      else
        var (q1, es1) := Dispatch(q, i);
        var (q2, es2) := Pass(c, q1, if AmountToCheck(p) > 0 then answers[1..] else answers);
        (q2, es1 + es2)
  }

  // ----- the operations -----

  /** The new entry in memory, before the pass. */
  function Enqueued(q: Queue, id: Id, p: Payment): (q': Queue)
    requires forall x :: x in q.pending ==> x in q.info
  {
    var info := q.info[id := Info(p, q.nextSequence)];
    q.(info := info, status := q.status[id := Queued], nextSequence := q.nextSequence + 1,
       active := q.active + {id}, pending := InsertPending(info, q.pending, id))
  }

  function Enqueue(c: Config, q: Queue, id: Id, p: Payment, answers: seq<bool>): (r: (Queue, seq<Effect>))
    requires forall x :: x in q.pending ==> x in q.info
  {
    InsertPendingMembers(q.info[id := Info(p, q.nextSequence)], q.pending, id);
    var (q1, es) := Pass(c, Enqueued(q, id, p), answers);
    (q1, [Save(id, p)] + es)
  }

  lemma {:induction false} InsertPendingMembers(info: map<Id, Info>, pending: seq<Id>, id: Id)
    requires id in info && forall p :: p in pending ==> p in info
    ensures forall x :: x in InsertPending(info, pending, id) <==> x == id || x in pending
  {
    if pending != [] && Precedes(info[pending[0]], info[id]) {
      InsertPendingMembers(info, pending[1..], id);
      assert forall x :: x in pending <==> x == pending[0] || x in pending[1..];
    }
  }

  function Cancel(q: Queue, id: Id): (r: (Queue, seq<Effect>)) {
    if id !in q.active || id !in q.status || q.status[id] != Queued then (q, [])
    else (q.(status := q.status[id := Cancelled], active := q.active - {id}, pending := Without(q.pending, id)),
          [Write(id, Cancelled)])
  }

  function Without(s: seq<Id>, id: Id): (r: seq<Id>) {
    if s == [] then [] else if s[0] == id then s[1..] else [s[0]] + Without(s[1..], id)
  }

  function Only(m: map<Id, OnUnpaid>, ids: set<Id>): (r: map<Id, OnUnpaid>) {
    map id | id in m && id in ids :: m[id]
  }

  /** Every ask in `asks` at once, those in `refusals` refused. */
  function AskAll(c: Config, q: Queue, asks: map<Id, OnUnpaid>, refusals: set<Id>): (q': Queue) {
    if !c.resolver then q
    else q.(awaitingOutcome := (q.awaitingOutcome - asks.Keys) + Only(asks, refusals),
            asks := q.asks + (asks - refusals))
  }

  /** reconcileInterrupted: an ask the resolver refuses at once waits for the next one. */
  function Ask(c: Config, q: Queue, id: Id, onUnpaid: OnUnpaid, refused: bool): (q': Queue) {
    AskAll(c, q, map[id := onUnpaid], if refused then {id} else {})
  }

  function Resettle(c: Config, q: Queue, refusals: set<Id>): (q': Queue) {
    if q.stopped then q else AskAll(c, q.(awaitingOutcome := map[]), q.awaitingOutcome, refusals)
  }

  function Start(c: Config, q: Queue, refusals: set<Id>, answers: seq<bool>): (r: (Queue, seq<Effect>))
    requires forall id :: id in q.pending ==> id in q.info
  {
    if q.stopped || q.started then (q, [])
    else
      var left := map id | id in q.interrupted && id in q.active :: Requeue;
      var q1 := Resettle(c, q.(started := true, restored := {}, interrupted := {}), refusals);
      Pass(c, AskAll(c, q1, left, refusals), answers)
  }

  function Poke(c: Config, q: Queue, answers: seq<bool>): (r: (Queue, seq<Effect>))
    requires forall id :: id in q.pending ==> id in q.info
  {
    if !q.started || q.stopped then (q, []) else Pass(c, q, answers)
  }

  datatype PayResult = PaidOk | StillPending | OtherStatus | Threw

  /** The status a dispatch ends with. */
  function EndStatus(c: Config, result: PayResult): (s: Status) {
    match result
    case PaidOk => Completed
    case StillPending => if c.resolver then Dispatching else Failed
    case _ => Failed
  }

  /** The entry recorded and its slot released; one still out is asked about. */
  function Ended(c: Config, q: Queue, id: Id, result: PayResult, refused: bool): (q': Queue)
    requires q.activeCount > 0
    ensures q'.pending == q.pending && q'.info == q.info
  {
    var s := EndStatus(c, result);
    var q1 := q.(status := q.status[id := s], activeCount := q.activeCount - 1, running := q.running - {id});
    if s == Dispatching then Ask(c, q1, id, Fail, refused) else Retire(c, q1, id, result == StillPending)
  }

  /** The tail of dispatchPayment, once the payer answered. */
  function EndDispatch(c: Config, q: Queue, id: Id, result: PayResult, refused: bool, answers: seq<bool>)
    : (r: (Queue, seq<Effect>))
    requires id in q.running && q.activeCount > 0
    requires forall x :: x in q.pending ==> x in q.info
  {
    var (q1, es) := Pass(c, Ended(c, q, id, result, refused), answers);
    (q1, [Write(id, EndStatus(c, result))] + es)
  }

  datatype Verdict = WasCompleted | WasUnpaid | WasUnclear

  /** recordInterruptedOutcome. */
  function Answer(c: Config, q: Queue, id: Id, verdict: Verdict, answers: seq<bool>): (r: (Queue, seq<Effect>))
    requires id in q.asks && id in q.info && forall x :: x in q.pending ==> x in q.info
  {
    var onUnpaid := q.asks[id];
    var q1 := q.(asks := q.asks - {id});
    if id !in q.status || q.status[id] != Dispatching then (q1, [])
    else match verdict
      case WasCompleted =>
        (Retire(c, q1.(status := q.status[id := Completed]), id, false), [Write(id, Completed)])
      case WasUnclear => (q1.(unclear := q.unclear + {id}), [])
      case WasUnpaid =>
        if onUnpaid == Fail then
          var (q2, es) := RecordFailed(c, q1, id);
          (q2, [Unpaid(id)] + es)
        else
          InsertPendingMembers(q.info, q.pending, id);
          var q2 := q1.(status := q.status[id := Queued], pending := InsertPending(q.info, q.pending, id));
          var (q3, es) := Pass(c, q2, answers);
          (q3, [Unpaid(id), Write(id, Queued)] + es)
  }

  function Refuse(q: Queue, id: Id): (q': Queue)
    requires id in q.asks
  {
    var q1 := q.(asks := q.asks - {id});
    if id in q.status && q.status[id] == Dispatching
    then q1.(awaitingOutcome := q.awaitingOutcome[id := q.asks[id]]) else q1
  }

  // ----- what every operation keeps -----

  ghost predicate Known(info: map<Id, Info>, status: map<Id, Status>, nextSequence: nat) {
    && info.Keys == status.Keys
    && (forall id :: id in info ==> info[id].sequence < nextSequence)
    && (forall x, y :: x in info && y in info && info[x].sequence == info[y].sequence ==> x == y)
  }

  /** `pending` lists exactly the queued entries, each once, in dispatch order. */
  ghost predicate InDispatchOrder(info: map<Id, Info>, pending: seq<Id>) {
    && (forall id :: id in pending ==> id in info)
    && (forall i, j :: 0 <= i < j < |pending| ==> Precedes(info[pending[i]], info[pending[j]]))
  }

  ghost predicate PendingExact(status: map<Id, Status>, pending: seq<Id>) {
    forall id :: id in pending <==> id in status && status[id] == Queued
  }

  ghost predicate ActiveExact(status: map<Id, Status>, active: set<Id>) {
    forall id :: id in active <==> id in status && IsActive(status[id])
  }

  /** The five places an entry that is out can be waiting in. */
  datatype Owning = Owning(
    running: set<Id>, asks: map<Id, OnUnpaid>, awaiting: map<Id, OnUnpaid>, interrupted: set<Id>, unclear: set<Id>)

  ghost function OwningOf(q: Queue): Owning {
    Owning(q.running, q.asks, q.awaitingOutcome, q.interrupted, q.unclear)
  }

  /** How many of them hold an entry. */
  ghost function Owners(o: Owning, id: Id): nat {
    (if id in o.running then 1 else 0) + (if id in o.asks then 1 else 0) + (if id in o.awaiting then 1 else 0)
    + (if id in o.interrupted then 1 else 0) + (if id in o.unclear then 1 else 0)
  }

  ghost predicate Is(status: map<Id, Status>, id: Id, s: Status) {
    id in status && status[id] == s
  }

  /** A dispatching entry has exactly one owner, and no other entry has any. */
  ghost predicate OneOwner(status: map<Id, Status>, o: Owning) {
    forall id {:trigger Owners(o, id)} :: Owners(o, id) == if Is(status, id, Dispatching) then 1 else 0
  }

  ghost predicate SlotsExact(c: Config, activeCount: nat, running: set<Id>) {
    activeCount == |running| <= c.maxConcurrent
  }

  ghost predicate PhaseOk(q: Queue) {
    q.started ==> q.restored == {} && q.interrupted == {}
  }

  ghost predicate HistoryOk(status: map<Id, Status>, finished: seq<Id>, unknown: set<Id>) {
    forall id :: id in finished || id in unknown ==> id in status && !IsActive(status[id])
  }

  /** Without a resolver nothing is ever asked. */
  ghost predicate ResolverOk(c: Config, o: Owning) {
    !c.resolver ==> o.asks == map[] && o.awaiting == map[] && o.interrupted == {} && o.unclear == {}
  }

  ghost predicate Valid(c: Config, q: Queue) {
    && Known(q.info, q.status, q.nextSequence)
    && InDispatchOrder(q.info, q.pending)
    && PendingExact(q.status, q.pending)
    && ActiveExact(q.status, q.active)
    && OneOwner(q.status, OwningOf(q))
    && SlotsExact(c, q.activeCount, q.running)
    && ResolverOk(c, OwningOf(q))
    && PhaseOk(q)
    && HistoryOk(q.status, q.finished, q.unknownOutcomes)
  }

  /** The rows agree with memory, and nothing queued is out or was sent by this process. */
  ghost predicate Agrees(c: Config, status: map<Id, Status>, l: Ledger) {
    && (forall id :: id in status ==> id in l.seen)
    && (forall id :: id in status && id in l.rows ==> l.rows[id].status == status[id])
    && (forall id :: id in status && IsActive(status[id]) ==> id in l.rows)
    && (forall id :: id in status && status[id] == Queued ==> id !in l.open && id !in l.sentHere)
    && (c.storage ==> forall id :: id in l.rows && IsActive(l.rows[id].status) ==> id in status)
  }

  /** An entry this process sent is never queued again by it. */
  ghost predicate SentOnce(o: Owning, l: Ledger) {
    && o.running <= l.sentHere
    && (forall id :: id in o.asks && id in l.sentHere ==> o.asks[id] == Fail)
    && (forall id :: id in o.awaiting && id in l.sentHere ==> o.awaiting[id] == Fail)
    && o.interrupted !! l.sentHere
  }

  /** What a history keeps by itself, whether or not a process is up. */
  ghost predicate Sound(l: Ledger) {
    && l.rows.Keys <= l.seen && l.open <= l.seen && l.sentHere <= l.seen
    && forall id :: HasStatus(l, id, Queued) ==> id !in l.open
  }

  ghost predicate Good(c: Config, q: Queue, l: Ledger) {
    Valid(c, q) && Agrees(c, q.status, l) && SentOnce(OwningOf(q), l) && Sound(l)
  }

  // ----- the pending list -----

  lemma {:induction false} InsertKeepsOrder(info: map<Id, Info>, pending: seq<Id>, id: Id)
    requires InDispatchOrder(info, pending) && id in info && id !in pending
    requires forall x, y :: x in info && y in info && info[x].sequence == info[y].sequence ==> x == y
    ensures InDispatchOrder(info, InsertPending(info, pending, id))
  {
    var r := InsertPending(info, pending, id);
    InsertPendingMembers(info, pending, id);
    if pending == [] {
    } else if Precedes(info[pending[0]], info[id]) {
      InsertKeepsOrder(info, pending[1..], id);
      InsertPendingMembers(info, pending[1..], id);
      forall j | 0 < j < |r| ensures Precedes(info[r[0]], info[r[j]]) {
        assert r[j] in r[1..];
      }
    } else {
      assert pending[0] in pending;
      assert info[pending[0]].sequence != info[id].sequence;
    }
  }

  lemma RemoveKeepsOrder(info: map<Id, Info>, pending: seq<Id>, i: nat)
    requires InDispatchOrder(info, pending) && i < |pending|
    ensures InDispatchOrder(info, RemoveAt(pending, i))
    ensures forall x :: x in RemoveAt(pending, i) <==> x in pending && x != pending[i]
  {
    var r := RemoveAt(pending, i);
    assert forall j :: 0 <= j < |r| ==> r[j] == pending[if j < i then j else j + 1];
    forall x | x in pending && x != pending[i] ensures x in r {
      var j :| 0 <= j < |pending| && pending[j] == x;
      assert r[if j < i then j else j - 1] == x;
    }
    assert forall j :: 0 <= j < |pending| && pending[j] == pending[i] ==> j == i;
  }

  // ----- small steps -----

  lemma ApplyTwo(l: Ledger, a: Effect, b: Effect)
    ensures ApplyAll(l, [a, b]) == Apply(Apply(l, a), b)
    ensures AllowedAll(l, [a, b]) <==> Allowed(l, a) && Allowed(Apply(l, a), b)
  {
    assert [a, b][1..] == [b];
    ApplyOne(Apply(l, a), b);
  }

  lemma ApplyOne(l: Ledger, a: Effect)
    ensures ApplyAll(l, [a]) == Apply(l, a)
    ensures AllowedAll(l, [a]) <==> Allowed(l, a)
  {
    assert [a][1..] == [];
  }

  lemma DispatchValid(c: Config, q: Queue, i: nat)
    requires Valid(c, q) && i < |q.pending| && q.activeCount < c.maxConcurrent
    ensures Valid(c, Dispatch(q, i).0)
  {
    hide InDispatchOrder, Known, RemoveAt;
    var id, q' := q.pending[i], Dispatch(q, i).0;
    RemoveKeepsOrder(q.info, q.pending, i);
    KnownFrame(q.info, q.status, q.nextSequence, id, Dispatching);
    var o, o' := OwningOf(q), OwningOf(q');
    assert Owners(o, id) == 0;
    forall x ensures Owners(o', x) == if Is(q'.status, x, Dispatching) then 1 else 0 {
      assert Owners(o, x) == if Is(q.status, x, Dispatching) then 1 else 0;
    }
  }

  lemma KnownFrame(info: map<Id, Info>, status: map<Id, Status>, n: nat, id: Id, s: Status)
    requires Known(info, status, n) && id in status
    ensures Known(info, status[id := s], n)
  {
  }

  lemma ActiveStays(status: map<Id, Status>, active: set<Id>, id: Id, s: Status)
    requires ActiveExact(status, active) && id in status && IsActive(status[id]) && IsActive(s)
    ensures ActiveExact(status[id := s], active)
  {
  }

  lemma ActiveLeaves(status: map<Id, Status>, active: set<Id>, id: Id, s: Status)
    requires ActiveExact(status, active) && !IsActive(s)
    ensures ActiveExact(status[id := s], active - {id})
  {
  }

  lemma PendingStays(status: map<Id, Status>, pending: seq<Id>, id: Id, s: Status)
    requires PendingExact(status, pending) && id in status && status[id] != Queued && s != Queued
    ensures PendingExact(status[id := s], pending)
  {
  }

  /** An entry that is not dispatching changes its status without any owner involved. */
  lemma OwnersFrame(status: map<Id, Status>, o: Owning, id: Id, s: Status)
    requires OneOwner(status, o) && !Is(status, id, Dispatching) && s != Dispatching
    ensures OneOwner(status[id := s], o)
  {
    forall x ensures Owners(o, x) == if Is(status[id := s], x, Dispatching) then 1 else 0 {
      assert Owners(o, x) == if Is(status, x, Dispatching) then 1 else 0;
    }
  }

  /** Recording an active entry's next status, in memory and in its row. */
  lemma WriteAgrees(c: Config, status: map<Id, Status>, l: Ledger, id: Id, s: Status)
    requires Agrees(c, status, l) && Sound(l) && id in status && LegalMove(status[id], s)
    requires s == Queued ==> id !in l.open && id !in l.sentHere
    ensures Allowed(l, Write(id, s))
    ensures Agrees(c, status[id := s], Apply(l, Write(id, s))) && Sound(Apply(l, Write(id, s)))
  {
  }

  /** Calling the payer for an entry recorded 'dispatching'. */
  lemma CallAgrees(c: Config, status: map<Id, Status>, l: Ledger, id: Id)
    requires Agrees(c, status, l) && Sound(l) && id in status && status[id] == Dispatching
    requires id !in l.open && id !in l.sentHere
    ensures Allowed(l, Call(id))
    ensures Agrees(c, status, Apply(l, Call(id))) && Sound(Apply(l, Call(id)))
  {
  }

  lemma DispatchSentOnce(o: Owning, id: Id, l: Ledger, l': Ledger)
    requires SentOnce(o, l) && Owners(o, id) == 0 && l'.sentHere == l.sentHere + {id}
    ensures SentOnce(o.(running := o.running + {id}), l')
  {
  }

  lemma SentOnceFrame(o: Owning, o': Owning, l: Ledger, l': Ledger)
    requires SentOnce(o, l) && l'.sentHere == l.sentHere
    requires o'.running <= o.running && o'.interrupted <= o.interrupted
    requires forall id :: id in o'.asks ==> id in o.asks && o'.asks[id] == o.asks[id]
    requires forall id :: id in o'.awaiting ==> id in o.awaiting && o'.awaiting[id] == o.awaiting[id]
    ensures SentOnce(o', l')
  {
  }

  lemma PendingFacts(c: Config, q: Queue, i: nat, l: Ledger)
    requires Good(c, q, l) && i < |q.pending|
    ensures var id := q.pending[i];
            && id in q.status && q.status[id] == Queued && Owners(OwningOf(q), id) == 0
            && id !in l.open && id !in l.sentHere
  {
    assert Owners(OwningOf(q), q.pending[i]) == 0;
  }

  lemma DispatchGood(c: Config, q: Queue, i: nat, l: Ledger)
    requires Good(c, q, l) && i < |q.pending| && q.activeCount < c.maxConcurrent
    ensures AllowedAll(l, Dispatch(q, i).1)
    ensures Good(c, Dispatch(q, i).0, ApplyAll(l, Dispatch(q, i).1))
  {
    hide Valid, Agrees, SentOnce, Sound, Owners, AllowedAll, ApplyAll, RemoveAt;
    var id := q.pending[i];
    PendingFacts(c, q, i, l);
    DispatchValid(c, q, i);
    ApplyTwo(l, Write(id, Dispatching), Call(id));
    WriteAgrees(c, q.status, l, id, Dispatching);
    var l1 := Apply(l, Write(id, Dispatching));
    CallAgrees(c, q.status[id := Dispatching], l1, id);
    DispatchSentOnce(OwningOf(q), id, l, Apply(l1, Call(id)));
  }

  lemma LastOfMembers(s: seq<Id>, keep: Option<nat>)
    ensures forall x :: x in LastOf(s, keep) ==> x in s
  {
  }

  /** Retiring an entry whose status is final keeps the history in order. */
  lemma RetireHistory(c: Config, q: Queue, id: Id, unknown: bool)
    requires HistoryOk(q.status, q.finished, q.unknownOutcomes) && id in q.status && !IsActive(q.status[id])
    ensures var q' := Retire(c, q, id, unknown); HistoryOk(q'.status, q'.finished, q'.unknownOutcomes)
  {
    LastOfMembers(q.finished + [id], c.keep);
  }

  lemma HistoryFrame(status: map<Id, Status>, finished: seq<Id>, unknown: set<Id>, id: Id, s: Status)
    requires HistoryOk(status, finished, unknown) && id in status && IsActive(status[id])
    ensures HistoryOk(status[id := s], finished, unknown)
  {
  }

  /** What a status change to a final one keeps, once the entry is off the pending list. */
  lemma FinishValid(c: Config, q: Queue, q1: Queue, id: Id, s: Status, unknown: bool)
    requires Valid(c, q) && id in q.status && IsActive(q.status[id]) && !IsActive(s)
    requires q1.info == q.info && q1.status == q.status[id := s] && q1.nextSequence == q.nextSequence
    requires q1.active == q.active && q1.finished == q.finished && q1.unknownOutcomes == q.unknownOutcomes
    requires q1.started == q.started && q1.restored == q.restored && q1.interrupted <= q.interrupted
    requires InDispatchOrder(q1.info, q1.pending) && PendingExact(q1.status, q1.pending)
    requires OneOwner(q1.status, OwningOf(q1)) && SlotsExact(c, q1.activeCount, q1.running)
    requires ResolverOk(c, OwningOf(q1))
    ensures Valid(c, Retire(c, q1, id, unknown))
  {
    hide InDispatchOrder, PendingExact, ActiveExact, OneOwner, SlotsExact, HistoryOk, Known, LastOf;
    ActiveLeaves(q.status, q.active, id, s);
    KnownFrame(q.info, q.status, q.nextSequence, id, s);
    HistoryFrame(q.status, q.finished, q.unknownOutcomes, id, s);
    RetireHistory(c, q1, id, unknown);
  }

  /** A queued entry with an unusable amount is failed out of the pending list. */
  lemma FailPendingValid(c: Config, q: Queue, i: nat)
    requires Valid(c, q) && i < |q.pending|
    ensures Valid(c, RecordFailed(c, q.(pending := RemoveAt(q.pending, i)), q.pending[i]).0)
  {
    hide InDispatchOrder, Known, RemoveAt, OneOwner, HistoryOk, SlotsExact, Retire;
    var id := q.pending[i];
    RemoveKeepsOrder(q.info, q.pending, i);
    OwnersFrame(q.status, OwningOf(q), id, Failed);
    FinishValid(c, q, q.(pending := RemoveAt(q.pending, i), status := q.status[id := Failed]), id, Failed, false);
  }

  lemma FailPendingGood(c: Config, q: Queue, i: nat, l: Ledger)
    requires Good(c, q, l) && i < |q.pending|
    ensures var (q', es) := RecordFailed(c, q.(pending := RemoveAt(q.pending, i)), q.pending[i]);
            AllowedAll(l, es) && Good(c, q', ApplyAll(l, es))
  {
    hide Valid, Agrees, SentOnce, Sound, Owners, AllowedAll, ApplyAll, RemoveAt;
    var id := q.pending[i];
    PendingFacts(c, q, i, l);
    FailPendingValid(c, q, i);
    ApplyOne(l, Write(id, Failed));
    WriteAgrees(c, q.status, l, id, Failed);
    SentOnceFrame(OwningOf(q), OwningOf(q), l, Apply(l, Write(id, Failed)));
  }

  /** A pass keeps every invariant and calls the payer only where it may. */
  lemma {:induction false} PassGood(c: Config, q: Queue, answers: seq<bool>, l: Ledger)
    requires Good(c, q, l)
    ensures forall id :: id in q.pending ==> id in q.info
    ensures AllowedAll(l, Pass(c, q, answers).1)
    ensures Good(c, Pass(c, q, answers).0, ApplyAll(l, Pass(c, q, answers).1))
    decreases |q.pending|
  {
    hide Good, AllowedAll, ApplyAll, Retire;
    PendingKnown(c, q, l);
    var i := FirstReleased(q.pending, q.restored);
    if q.stopped || q.activeCount >= c.maxConcurrent || i == |q.pending| {
      NoEffects(l);
    } else {
      var id := q.pending[i];
      var p := q.info[id].payment;
      if p.amount.Malformed? {
        FailPendingGood(c, q, i, l);
        var (q1, es1) := RecordFailed(c, q.(pending := RemoveAt(q.pending, i)), id);
        RetireKeepsPending(c, q.(pending := RemoveAt(q.pending, i), status := q.status[id := Failed]), id, false);
        PassGood(c, q1, answers, ApplyAll(l, es1));
        ApplyAllConcat(l, es1, Pass(c, q1, answers).1);
      } else if AmountToCheck(p) > 0 && (answers == [] || !answers[0]) {
        NoEffects(l);
      } else {
        DispatchGood(c, q, i, l);
        var (q1, es1) := Dispatch(q, i);
        var rest := if AmountToCheck(p) > 0 then answers[1..] else answers;
        PassGood(c, q1, rest, ApplyAll(l, es1));
        ApplyAllConcat(l, es1, Pass(c, q1, rest).1);
      }
    }
  }

  lemma NoEffects(l: Ledger)
    ensures AllowedAll(l, []) && ApplyAll(l, []) == l
  {
  }

  lemma PendingKnown(c: Config, q: Queue, l: Ledger)
    requires Good(c, q, l)
    ensures forall id :: id in q.pending ==> id in q.info
  {
  }

  lemma RetireKeepsPending(c: Config, q: Queue, id: Id, unknown: bool)
    ensures Retire(c, q, id, unknown).pending == q.pending && Retire(c, q, id, unknown).info == q.info
  {
  }

  // ----- enqueue and cancel -----

  lemma EnqueuedPending(c: Config, q: Queue, id: Id, p: Payment)
    requires Valid(c, q) && id !in q.status
    ensures var q' := Enqueued(q, id, p);
            && Known(q'.info, q'.status, q'.nextSequence)
            && InDispatchOrder(q'.info, q'.pending) && PendingExact(q'.status, q'.pending)
  {
    hide OneOwner, HistoryOk, SlotsExact;
    var q' := Enqueued(q, id, p);
    assert id !in q.pending;
    assert InDispatchOrder(q'.info, q.pending);
    InsertKeepsOrder(q'.info, q.pending, id);
    InsertPendingMembers(q'.info, q.pending, id);
  }

  lemma EnqueuedValid(c: Config, q: Queue, id: Id, p: Payment)
    requires Valid(c, q) && id !in q.status
    ensures Valid(c, Enqueued(q, id, p))
  {
    hide Known, InDispatchOrder, PendingExact, InsertPending, OneOwner;
    EnqueuedPending(c, q, id, p);
    OwnersFrame(q.status, OwningOf(q), id, Queued);
  }

  lemma SaveAgrees(c: Config, status: map<Id, Status>, l: Ledger, id: Id, p: Payment)
    requires Agrees(c, status, l) && Sound(l) && id !in l.seen
    ensures Allowed(l, Save(id, p))
    ensures Agrees(c, status[id := Queued], Apply(l, Save(id, p))) && Sound(Apply(l, Save(id, p)))
    ensures id !in status
  {
  }

  lemma EnqueueGood(c: Config, q: Queue, id: Id, p: Payment, answers: seq<bool>, l: Ledger)
    requires Good(c, q, l) && id !in l.seen
    ensures forall x :: x in q.pending ==> x in q.info
    ensures var (q', es) := Enqueue(c, q, id, p, answers);
            AllowedAll(l, es) && Good(c, q', ApplyAll(l, es))
  {
    PendingKnown(c, q, l);
    hide Valid, Agrees, SentOnce, Sound, AllowedAll, ApplyAll, InsertPending, Pass;
    SaveAgrees(c, q.status, l, id, p);
    EnqueuedValid(c, q, id, p);
    var q1, l1 := Enqueued(q, id, p), Apply(l, Save(id, p));
    SentOnceFrame(OwningOf(q), OwningOf(q1), l, l1);
    PassGood(c, q1, answers, l1);
    ApplyOne(l, Save(id, p));
    ApplyAllConcat(l, [Save(id, p)], Pass(c, q1, answers).1);
  }

  lemma {:induction false} WithoutRemoves(s: seq<Id>, id: Id) returns (i: nat)
    requires id in s
    ensures i < |s| && s[i] == id && Without(s, id) == RemoveAt(s, i)
  {
    if s[0] == id {
      i := 0;
    } else {
      var j := WithoutRemoves(s[1..], id);
      i := j + 1;
    }
  }

  lemma CancelValid(c: Config, q: Queue, id: Id)
    requires Valid(c, q) && id in q.status && q.status[id] == Queued
    ensures Valid(c, Cancel(q, id).0)
  {
    hide InDispatchOrder, Known, RemoveAt, OneOwner, HistoryOk, SlotsExact;
    var i := WithoutRemoves(q.pending, id);
    RemoveKeepsOrder(q.info, q.pending, i);
    OwnersFrame(q.status, OwningOf(q), id, Cancelled);
    KnownFrame(q.info, q.status, q.nextSequence, id, Cancelled);
    HistoryFrame(q.status, q.finished, q.unknownOutcomes, id, Cancelled);
  }

  lemma CancelGood(c: Config, q: Queue, id: Id, l: Ledger)
    requires Good(c, q, l)
    ensures var (q', es) := Cancel(q, id); AllowedAll(l, es) && Good(c, q', ApplyAll(l, es))
  {
    hide Valid, Agrees, SentOnce, Sound, AllowedAll, ApplyAll, Without;
    NoEffects(l);
    if id in q.active && id in q.status && q.status[id] == Queued {
      CancelValid(c, q, id);
      ApplyOne(l, Write(id, Cancelled));
      WriteAgrees(c, q.status, l, id, Cancelled);
      SentOnceFrame(OwningOf(q), OwningOf(q), l, Apply(l, Write(id, Cancelled)));
    }
  }

  // ----- asking the resolver -----

  ghost function Asking(o: Owning, asks: map<Id, OnUnpaid>, refusals: set<Id>): Owning {
    o.(awaiting := (o.awaiting - asks.Keys) + Only(asks, refusals), asks := o.asks + (asks - refusals))
  }

  /** Every dispatching entry has one owner, counting those in `loose` as about to get one. */
  ghost predicate OwnedBut(status: map<Id, Status>, o: Owning, loose: set<Id>) {
    forall id {:trigger Owners(o, id)} ::
      Owners(o, id) + (if id in loose then 1 else 0) == if Is(status, id, Dispatching) then 1 else 0
  }

  /** Asking moves owners into `asks` or `awaitingOutcome`; none is doubled or lost. */
  lemma AskOwners(status: map<Id, Status>, o: Owning, asks: map<Id, OnUnpaid>, refusals: set<Id>, loose: set<Id>)
    requires OwnedBut(status, o, loose) && asks.Keys <= loose
    ensures OwnedBut(status, Asking(o, asks, refusals), loose - asks.Keys)
  {
    var o' := Asking(o, asks, refusals);
    forall x ensures Owners(o', x) + (if x in loose - asks.Keys then 1 else 0)
                     == if Is(status, x, Dispatching) then 1 else 0
    {
      assert Owners(o, x) + (if x in loose then 1 else 0) == if Is(status, x, Dispatching) then 1 else 0;
    }
  }

  lemma AskSentOnce(o: Owning, asks: map<Id, OnUnpaid>, refusals: set<Id>, l: Ledger)
    requires SentOnce(o, l) && forall id :: id in asks && id in l.sentHere ==> asks[id] == Fail
    ensures SentOnce(Asking(o, asks, refusals), l)
  {
  }

  lemma NoneLoose(status: map<Id, Status>, o: Owning, loose: set<Id>)
    requires loose == {}
    ensures OneOwner(status, o) <==> OwnedBut(status, o, loose)
  {
    if OwnedBut(status, o, loose) {
      forall x ensures Owners(o, x) == if Is(status, x, Dispatching) then 1 else 0 {
        assert Owners(o, x) + (if x in loose then 1 else 0) == if Is(status, x, Dispatching) then 1 else 0;
      }
    }
  }

  /** What is left of the invariant while some entries are between owners. */
  ghost predicate GoodBut(c: Config, q: Queue, l: Ledger, loose: set<Id>) {
    && Known(q.info, q.status, q.nextSequence)
    && InDispatchOrder(q.info, q.pending)
    && PendingExact(q.status, q.pending)
    && ActiveExact(q.status, q.active)
    && OwnedBut(q.status, OwningOf(q), loose)
    && SlotsExact(c, q.activeCount, q.running)
    && ResolverOk(c, OwningOf(q))
    && PhaseOk(q)
    && HistoryOk(q.status, q.finished, q.unknownOutcomes)
    && Agrees(c, q.status, l) && SentOnce(OwningOf(q), l) && Sound(l)
  }

  lemma GoodNoneLoose(c: Config, q: Queue, l: Ledger)
    ensures Good(c, q, l) <==> GoodBut(c, q, l, {})
  {
    NoneLoose(q.status, OwningOf(q), {});
  }

  lemma AskAllGood(c: Config, q: Queue, asks: map<Id, OnUnpaid>, refusals: set<Id>, l: Ledger, loose: set<Id>)
    requires GoodBut(c, q, l, loose) && asks.Keys <= loose && c.resolver
    requires forall id :: id in asks && id in l.sentHere ==> asks[id] == Fail
    ensures GoodBut(c, AskAll(c, q, asks, refusals), l, loose - asks.Keys)
  {
    hide Known, InDispatchOrder, PendingExact, ActiveExact, OwnedBut, Agrees, SentOnce, Sound, HistoryOk, SlotsExact;
    var q' := AskAll(c, q, asks, refusals);
    AskOwners(q.status, OwningOf(q), asks, refusals, loose);
    AskSentOnce(OwningOf(q), asks, refusals, l);
    assert OwningOf(q') == Asking(OwningOf(q), asks, refusals);
  }

  // ----- start, resettle, poke -----

  /** Entries whose ask was refused are taken out to be asked about again. */
  lemma LoosenAwaiting(c: Config, q: Queue, l: Ledger, loose: set<Id>)
    requires GoodBut(c, q, l, loose)
    ensures GoodBut(c, q.(awaitingOutcome := map[]), l, loose + q.awaitingOutcome.Keys)
    ensures loose !! q.awaitingOutcome.Keys
    ensures forall id :: id in q.awaitingOutcome && id in l.sentHere ==> q.awaitingOutcome[id] == Fail
    ensures !c.resolver ==> q.awaitingOutcome == map[]
  {
    hide Known, InDispatchOrder, PendingExact, ActiveExact, Agrees, Sound, HistoryOk, SlotsExact;
    var q', o := q.(awaitingOutcome := map[]), OwningOf(q);
    var o' := OwningOf(q');
    forall x ensures Owners(o', x) + (if x in loose + q.awaitingOutcome.Keys then 1 else 0)
                     == if Is(q.status, x, Dispatching) then 1 else 0
            ensures !(x in loose && x in q.awaitingOutcome)
    {
      assert Owners(o, x) + (if x in loose then 1 else 0) == if Is(q.status, x, Dispatching) then 1 else 0;
    }
  }

  lemma ResettleBut(c: Config, q: Queue, refusals: set<Id>, l: Ledger, loose: set<Id>)
    requires GoodBut(c, q, l, loose)
    ensures GoodBut(c, Resettle(c, q, refusals), l, loose)
  {
    hide GoodBut;
    if !q.stopped {
      LoosenAwaiting(c, q, l, loose);
      if c.resolver {
        AskAllGood(c, q.(awaitingOutcome := map[]), q.awaitingOutcome, refusals, l, loose + q.awaitingOutcome.Keys);
        assert loose + q.awaitingOutcome.Keys - q.awaitingOutcome.Keys == loose;
      } else {
        assert loose + q.awaitingOutcome.Keys == loose;
      }
    }
  }

  lemma ResettleGood(c: Config, q: Queue, refusals: set<Id>, l: Ledger)
    requires Good(c, q, l)
    ensures Good(c, Resettle(c, q, refusals), l)
  {
    hide Good, GoodBut;
    GoodNoneLoose(c, q, l);
    ResettleBut(c, q, refusals, l, {});
    GoodNoneLoose(c, Resettle(c, q, refusals), l);
  }

  lemma LoosenInterrupted(c: Config, q: Queue, l: Ledger)
    requires Good(c, q, l)
    ensures GoodBut(c, q.(started := true, restored := {}, interrupted := {}), l, q.interrupted)
    ensures q.interrupted <= q.active && q.interrupted !! l.sentHere
    ensures !c.resolver ==> q.interrupted == {}
  {
    hide Known, InDispatchOrder, PendingExact, Agrees, Sound, HistoryOk, SlotsExact;
    var q' := q.(started := true, restored := {}, interrupted := {});
    var o, o' := OwningOf(q), OwningOf(q');
    forall x ensures Owners(o', x) + (if x in q.interrupted then 1 else 0)
                     == if Is(q.status, x, Dispatching) then 1 else 0
            ensures x in q.interrupted ==> x in q.active
    {
      assert Owners(o, x) == if Is(q.status, x, Dispatching) then 1 else 0;
    }
  }

  lemma StartGood(c: Config, q: Queue, refusals: set<Id>, answers: seq<bool>, l: Ledger)
    requires Good(c, q, l)
    ensures forall id :: id in q.pending ==> id in q.info
    ensures var (q', es) := Start(c, q, refusals, answers); AllowedAll(l, es) && Good(c, q', ApplyAll(l, es))
  {
    hide Good, GoodBut, AllowedAll, ApplyAll, Pass, Resettle, AskAll;
    PendingKnown(c, q, l);
    if q.stopped || q.started {
      NoEffects(l);
    } else {
      var left := map id | id in q.interrupted && id in q.active :: Requeue;
      LoosenInterrupted(c, q, l);
      assert left.Keys == q.interrupted;
      var q0 := q.(started := true, restored := {}, interrupted := {});
      ResettleBut(c, q0, refusals, l, q.interrupted);
      var q1 := Resettle(c, q0, refusals);
      if c.resolver {
        AskAllGood(c, q1, left, refusals, l, q.interrupted);
        assert q.interrupted - left.Keys == {};
      } else {
        NoResolverNoAsk(c, q1, left, refusals);
      }
      var q2 := AskAll(c, q1, left, refusals);
      GoodNoneLoose(c, q2, l);
      PassGood(c, q2, answers, l);
    }
  }

  lemma NoResolverNoAsk(c: Config, q: Queue, asks: map<Id, OnUnpaid>, refusals: set<Id>)
    requires !c.resolver
    ensures AskAll(c, q, asks, refusals) == q
  {
  }

  lemma PokeGood(c: Config, q: Queue, answers: seq<bool>, l: Ledger)
    requires Good(c, q, l)
    ensures forall id :: id in q.pending ==> id in q.info
    ensures var (q', es) := Poke(c, q, answers); AllowedAll(l, es) && Good(c, q', ApplyAll(l, es))
  {
    hide Good, AllowedAll, ApplyAll, Pass;
    PassGood(c, q, answers, l);
    NoEffects(l);
  }

  // ----- a dispatch ends -----

  ghost function Unslotted(q: Queue, id: Id): Queue
    requires q.activeCount > 0
  {
    q.(activeCount := q.activeCount - 1, running := q.running - {id})
  }

  lemma UnslotGood(c: Config, q: Queue, id: Id, l: Ledger)
    requires Good(c, q, l) && id in q.running
    ensures q.activeCount > 0 && Is(q.status, id, Dispatching) && id in l.sentHere
    ensures GoodBut(c, Unslotted(q, id), l, {id})
  {
    hide Known, InDispatchOrder, PendingExact, Agrees, Sound, HistoryOk;
    assert |q.running| == |q.running - {id}| + 1;
    var q' := Unslotted(q, id);
    var o, o' := OwningOf(q), OwningOf(q');
    assert Owners(o, id) == 1;
    forall x ensures Owners(o', x) + (if x in {id} then 1 else 0) == if Is(q.status, x, Dispatching) then 1 else 0 {
      assert Owners(o, x) == if Is(q.status, x, Dispatching) then 1 else 0;
    }
  }

  /** A write that leaves memory as it was: the entry is still out. */
  lemma WriteSame(c: Config, q: Queue, id: Id, l: Ledger, loose: set<Id>)
    requires GoodBut(c, q, l, loose) && Is(q.status, id, Dispatching)
    ensures Allowed(l, Write(id, Dispatching))
    ensures GoodBut(c, q, Apply(l, Write(id, Dispatching)), loose)
  {
    hide Known, InDispatchOrder, PendingExact, ActiveExact, OwnedBut, Agrees, SentOnce, Sound, HistoryOk, SlotsExact;
    WriteAgrees(c, q.status, l, id, Dispatching);
    assert q.status[id := Dispatching] == q.status;
    SentOnceFrame(OwningOf(q), OwningOf(q), l, Apply(l, Write(id, Dispatching)));
  }

  /** An entry between owners takes a final status and is retired. */
  lemma FinishLoose(c: Config, q: Queue, id: Id, s: Status, unknown: bool, l: Ledger)
    requires GoodBut(c, q, l, {id}) && Is(q.status, id, Dispatching) && (s == Completed || s == Failed)
    ensures Allowed(l, Write(id, s))
    ensures Good(c, Retire(c, q.(status := q.status[id := s]), id, unknown), Apply(l, Write(id, s)))
  {
    hide Known, InDispatchOrder, PendingExact, ActiveExact, OwnedBut, OneOwner, Agrees, SentOnce, Sound, HistoryOk, SlotsExact, LastOf;
    ActiveLeaves(q.status, q.active, id, s);
    PendingStays(q.status, q.pending, id, s);
    var q1 := q.(status := q.status[id := s]);
    WriteAgrees(c, q.status, l, id, s);
    KnownFrame(q.info, q.status, q.nextSequence, id, s);
    HistoryFrame(q.status, q.finished, q.unknownOutcomes, id, s);
    RetireHistory(c, q1, id, unknown);
    LooseFinishes(q.status, OwningOf(q), id, s);
    SentOnceFrame(OwningOf(q), OwningOf(q), l, Apply(l, Write(id, s)));
  }

  lemma LooseFinishes(status: map<Id, Status>, o: Owning, id: Id, s: Status)
    requires OwnedBut(status, o, {id}) && Is(status, id, Dispatching) && s != Dispatching
    ensures OneOwner(status[id := s], o)
  {
    forall x ensures Owners(o, x) == if Is(status[id := s], x, Dispatching) then 1 else 0 {
      assert Owners(o, x) + (if x in {id} then 1 else 0) == if Is(status, x, Dispatching) then 1 else 0;
    }
  }

  lemma EndDispatchGood(
      c: Config, q: Queue, id: Id, result: PayResult, refused: bool, answers: seq<bool>, l: Ledger)
    requires Good(c, q, l) && id in q.running
    ensures q.activeCount > 0 && forall x :: x in q.pending ==> x in q.info
    ensures var (q', es) := EndDispatch(c, q, id, result, refused, answers);
            AllowedAll(l, es) && Good(c, q', ApplyAll(l, es))
  {
    hide Good, GoodBut, AllowedAll, ApplyAll, Pass, Retire, AskAll;
    PendingKnown(c, q, l);
    UnslotGood(c, q, id, l);
    var s := EndStatus(c, result);
    var l1 := Apply(l, Write(id, s));
    var q0 := Unslotted(q, id);
    var q1 := q.(status := q.status[id := s], activeCount := q.activeCount - 1, running := q.running - {id});
    var q2 := Ended(c, q, id, result, refused);
    if s == Dispatching {
      assert q1 == q0 by { assert q.status[id := s] == q.status; }
      WriteSame(c, q0, id, l, {id});
      AskAllGood(c, q0, map[id := Fail], if refused then {id} else {}, l1, {id});
      assert {id} - map[id := Fail].Keys == {};
      GoodNoneLoose(c, q2, l1);
    } else {
      FinishLoose(c, q0, id, s, result == StillPending, l);
    }
    PassGood(c, q2, answers, l1);
    ApplyOne(l, Write(id, s));
    ApplyAllConcat(l, [Write(id, s)], Pass(c, q2, answers).1);
  }

  // ----- the resolver answers -----

  lemma UnaskGood(c: Config, q: Queue, id: Id, l: Ledger)
    requires Good(c, q, l) && id in q.asks
    ensures Is(q.status, id, Dispatching) && id in q.info && c.resolver
    ensures GoodBut(c, q.(asks := q.asks - {id}), l, {id})
    ensures id in l.sentHere ==> q.asks[id] == Fail
  {
    hide InDispatchOrder, PendingExact, Agrees, Sound, HistoryOk, SlotsExact;
    var q' := q.(asks := q.asks - {id});
    var o, o' := OwningOf(q), OwningOf(q');
    assert Owners(o, id) == 1;
    forall x ensures Owners(o', x) + (if x in {id} then 1 else 0) == if Is(q.status, x, Dispatching) then 1 else 0 {
      assert Owners(o, x) == if Is(q.status, x, Dispatching) then 1 else 0;
    }
  }

  lemma UnclearGood(c: Config, q: Queue, id: Id, l: Ledger)
    requires GoodBut(c, q, l, {id}) && c.resolver
    ensures Good(c, q.(unclear := q.unclear + {id}), l)
  {
    hide Known, InDispatchOrder, PendingExact, ActiveExact, Agrees, Sound, HistoryOk, SlotsExact;
    var q' := q.(unclear := q.unclear + {id});
    var o, o' := OwningOf(q), OwningOf(q');
    forall x ensures Owners(o', x) == if Is(q.status, x, Dispatching) then 1 else 0 {
      assert Owners(o, x) + (if x in {id} then 1 else 0) == if Is(q.status, x, Dispatching) then 1 else 0;
    }
  }

  /** An 'unpaid' answer closes what was out. */
  lemma UnpaidGood(c: Config, q: Queue, id: Id, l: Ledger)
    requires GoodBut(c, q, l, {id}) && Is(q.status, id, Dispatching)
    ensures Allowed(l, Unpaid(id)) && GoodBut(c, q, Apply(l, Unpaid(id)), {id})
  {
    hide Known, InDispatchOrder, PendingExact, ActiveExact, OwnedBut, HistoryOk, SlotsExact;
  }

  lemma RequeuePending(c: Config, q: Queue, id: Id, l: Ledger)
    requires GoodBut(c, q, l, {id}) && Is(q.status, id, Dispatching)
    ensures id in q.info && forall x :: x in q.pending ==> x in q.info
    ensures InDispatchOrder(q.info, InsertPending(q.info, q.pending, id))
    ensures PendingExact(q.status[id := Queued], InsertPending(q.info, q.pending, id))
  {
    hide OwnedBut, Agrees, SentOnce, Sound, HistoryOk, SlotsExact, ActiveExact;
    InsertKeepsOrder(q.info, q.pending, id);
    InsertPendingMembers(q.info, q.pending, id);
  }

  lemma RequeueGood(c: Config, q: Queue, id: Id, l: Ledger)
    requires GoodBut(c, q, l, {id}) && Is(q.status, id, Dispatching) && id !in l.open && id !in l.sentHere
    requires id in q.info && forall x :: x in q.pending ==> x in q.info
    ensures Allowed(l, Write(id, Queued))
    ensures Good(c, q.(status := q.status[id := Queued], pending := InsertPending(q.info, q.pending, id)),
                 Apply(l, Write(id, Queued)))
  {
    hide Known, InDispatchOrder, PendingExact, ActiveExact, OwnedBut, OneOwner, Agrees, SentOnce, Sound, HistoryOk, SlotsExact, InsertPending;
    RequeuePending(c, q, id, l);
    WriteAgrees(c, q.status, l, id, Queued);
    ActiveStays(q.status, q.active, id, Queued);
    KnownFrame(q.info, q.status, q.nextSequence, id, Queued);
    HistoryFrame(q.status, q.finished, q.unknownOutcomes, id, Queued);
    LooseFinishes(q.status, OwningOf(q), id, Queued);
    SentOnceFrame(OwningOf(q), OwningOf(q), l, Apply(l, Write(id, Queued)));
  }

  lemma AnswerUnpaidGood(c: Config, q: Queue, id: Id, answers: seq<bool>, l: Ledger)
    requires Good(c, q, l) && id in q.asks
    ensures Is(q.status, id, Dispatching) && id in q.info && forall x :: x in q.pending ==> x in q.info
    ensures var (q', es) := Answer(c, q, id, WasUnpaid, answers);
            AllowedAll(l, es) && Good(c, q', ApplyAll(l, es))
  {
    hide Good, GoodBut, AllowedAll, ApplyAll, Pass, Retire, InsertPending;
    PendingKnown(c, q, l);
    UnaskGood(c, q, id, l);
    var q1, l1 := q.(asks := q.asks - {id}), Apply(l, Unpaid(id));
    UnpaidGood(c, q1, id, l);
    if q.asks[id] == Fail {
      FinishLoose(c, q1, id, Failed, false, l1);
      ApplyTwo(l, Unpaid(id), Write(id, Failed));
      assert [Unpaid(id)] + [Write(id, Failed)] == [Unpaid(id), Write(id, Failed)];
    } else {
      RequeueGood(c, q1, id, l1);
      var q2 := q1.(status := q.status[id := Queued], pending := InsertPending(q.info, q.pending, id));
      PassGood(c, q2, answers, Apply(l1, Write(id, Queued)));
      ApplyTwo(l, Unpaid(id), Write(id, Queued));
      ApplyAllConcat(l, [Unpaid(id), Write(id, Queued)], Pass(c, q2, answers).1);
    }
  }

  lemma AnswerGood(c: Config, q: Queue, id: Id, verdict: Verdict, answers: seq<bool>, l: Ledger)
    requires Good(c, q, l) && id in q.asks
    ensures id in q.info && forall x :: x in q.pending ==> x in q.info
    ensures var (q', es) := Answer(c, q, id, verdict, answers);
            AllowedAll(l, es) && Good(c, q', ApplyAll(l, es))
  {
    hide Good, GoodBut, AllowedAll, ApplyAll, Pass, Retire, InsertPending;
    PendingKnown(c, q, l);
    UnaskGood(c, q, id, l);
    var q1 := q.(asks := q.asks - {id});
    match verdict
    case WasUnpaid => AnswerUnpaidGood(c, q, id, answers, l);
    case WasUnclear =>
      UnclearGood(c, q1, id, l);
      NoEffects(l);
    case WasCompleted =>
      FinishLoose(c, q1, id, Completed, false, l);
      ApplyOne(l, Write(id, Completed));
  }

  lemma AwaitGood(c: Config, q: Queue, id: Id, onUnpaid: OnUnpaid, l: Ledger)
    requires GoodBut(c, q, l, {id}) && c.resolver && (id in l.sentHere ==> onUnpaid == Fail)
    ensures Good(c, q.(awaitingOutcome := q.awaitingOutcome[id := onUnpaid]), l)
  {
    hide Known, InDispatchOrder, PendingExact, ActiveExact, Agrees, Sound, HistoryOk, SlotsExact;
    var q' := q.(awaitingOutcome := q.awaitingOutcome[id := onUnpaid]);
    var o, o' := OwningOf(q), OwningOf(q');
    assert Owners(o, id) == 0;
    forall x ensures Owners(o', x) == if Is(q.status, x, Dispatching) then 1 else 0 {
      assert Owners(o, x) + (if x in {id} then 1 else 0) == if Is(q.status, x, Dispatching) then 1 else 0;
    }
  }

  lemma RefuseGood(c: Config, q: Queue, id: Id, l: Ledger)
    requires Good(c, q, l) && id in q.asks
    ensures Good(c, Refuse(q, id), l)
  {
    hide Good, GoodBut;
    UnaskGood(c, q, id, l);
    AwaitGood(c, q.(asks := q.asks - {id}), id, q.asks[id], l);
  }

  // ----- prune -----

  function Deletes(ids: seq<Id>): (es: seq<Effect>) {
    if ids == [] then [] else [Delete(ids[0])] + Deletes(ids[1..])
  }

  /** What prune() removes: memory's history, and of what storage lists all that is not active. */
  function Removed(q: Queue, listed: set<Id>): (ids: set<Id>) {
    (set id | id in q.finished) + q.unknownOutcomes + (set id | id in listed && id !in q.active)
  }

  /** `order` lists a set's members, each once. */
  predicate Enumerates(order: seq<Id>, ids: set<Id>) {
    (set id | id in order) == ids && forall i, j :: 0 <= i < j < |order| ==> order[i] != order[j]
  }

  function Prune(c: Config, q: Queue, order: seq<Id>): (r: (Queue, seq<Effect>)) {
    (q.(finished := [], unknownOutcomes := {}), if c.storage then Deletes(order) else [])
  }

  lemma DeleteAgrees(c: Config, status: map<Id, Status>, l: Ledger, id: Id)
    requires Agrees(c, status, l) && Sound(l) && (id in status ==> !IsActive(status[id]))
    requires id in l.rows ==> !IsActive(l.rows[id].status)
    ensures Allowed(l, Delete(id)) && Agrees(c, status, Apply(l, Delete(id))) && Sound(Apply(l, Delete(id)))
  {
  }

  lemma {:induction false} DeletesGood(c: Config, q: Queue, ids: seq<Id>, l: Ledger)
    requires Good(c, q, l) && forall id :: id in ids ==> id !in q.active
    requires forall id :: id in ids && id in l.rows ==> !IsActive(l.rows[id].status)
    ensures AllowedAll(l, Deletes(ids)) && Good(c, q, ApplyAll(l, Deletes(ids)))
    decreases |ids|
  {
    hide Valid, Agrees, SentOnce, Sound, AllowedAll, ApplyAll;
    if ids == [] {
      NoEffects(l);
    } else {
      var l1 := Apply(l, Delete(ids[0]));
      NotActive(c, q, ids[0]);
      DeleteAgrees(c, q.status, l, ids[0]);
      SentOnceFrame(OwningOf(q), OwningOf(q), l, l1);
      DeletesGood(c, q, ids[1..], l1);
      ApplyOne(l, Delete(ids[0]));
      ApplyAllConcat(l, [Delete(ids[0])], Deletes(ids[1..]));
    }
  }

  lemma NotActive(c: Config, q: Queue, id: Id)
    requires Valid(c, q) && id !in q.active
    ensures id in q.status ==> !IsActive(q.status[id])
  {
  }

  /** Nothing prune() removes is active, in memory or in its row, whatever storage lists. */
  lemma RemovedInactive(c: Config, q: Queue, listed: set<Id>, l: Ledger, id: Id)
    requires Good(c, q, l) && id in Removed(q, listed)
    ensures id !in q.active
    ensures c.storage && id in l.rows ==> !IsActive(l.rows[id].status)
  {
    hide Known, InDispatchOrder, PendingExact, OneOwner, SentOnce, Sound, SlotsExact;
  }

  lemma PruneGood(c: Config, q: Queue, listed: set<Id>, order: seq<Id>, l: Ledger)
    requires Good(c, q, l) && Enumerates(order, Removed(q, listed))
    ensures var (q', es) := Prune(c, q, order); AllowedAll(l, es) && Good(c, q', ApplyAll(l, es))
  {
    NoEffects(l);
    if c.storage {
      forall id | id in order ensures id !in q.active && (id in l.rows ==> !IsActive(l.rows[id].status)) {
        assert id in Removed(q, listed);
        RemovedInactive(c, q, listed, l, id);
      }
      hide Removed, Enumerates;
      DeletesGood(c, q, order, l);
    }
    hide Agrees, SentOnce, Sound, AllowedAll, ApplyAll, Known, InDispatchOrder, PendingExact, OneOwner;
  }

  // ----- restoring -----

  /** The constructor's sort: priority, then creation, then the id's counter. */
  predicate SortsBefore(a: Payment, b: Payment) {
    a.priority < b.priority
    || (a.priority == b.priority && (a.createdAt < b.createdAt || (a.createdAt == b.createdAt && a.counter <= b.counter)))
  }

  /** A reading of the rows: every active one, and whichever finished ones are kept, sorted. */
  ghost predicate IsRestoreOrder(rows: map<Id, Row>, order: seq<Id>) {
    && (forall i, j :: 0 <= i < j < |order| ==> order[i] != order[j])
    && (forall id :: id in order ==> id in rows)
    && (forall id :: id in rows && IsActive(rows[id].status) ==> id in order)
    && (forall i, j :: 0 <= i < j < |order| ==> SortsBefore(rows[order[i]].payment, rows[order[j]].payment))
  }

  function IndexOf(order: seq<Id>, id: Id): (i: nat)
    requires id in order
    ensures i < |order| && order[i] == id
  {
    if order[0] == id then 0 else 1 + IndexOf(order[1..], id)
  }

  /** A row still 'dispatching' waits for the resolver, or fails when there is none. */
  function RestoredStatus(c: Config, s: Status): Status {
    if s == Dispatching && !c.resolver then Failed else s
  }

  function QueuedIn(rows: map<Id, Row>, order: seq<Id>): (r: seq<Id>)
    requires forall id :: id in order ==> id in rows
  {
    if order == [] then []
    else (if rows[order[0]].status == Queued then [order[0]] else []) + QueuedIn(rows, order[1..])
  }

  function FailsIn(c: Config, rows: map<Id, Row>, order: seq<Id>): (es: seq<Effect>)
    requires forall id :: id in order ==> id in rows
  {
    if order == [] then []
    else (if rows[order[0]].status == Dispatching && !c.resolver then [Write(order[0], Failed)] else [])
         + FailsIn(c, rows, order[1..])
  }

  /** The constructor. `done` is the restored history, oldest finished first. */
  function Restore(c: Config, rows: map<Id, Row>, order: seq<Id>, done: seq<Id>): (r: (Queue, seq<Effect>))
    requires forall id :: id in order ==> id in rows
  {
    if !c.storage then (Empty(), [Boot]) else
      var status := map id | id in order :: RestoredStatus(c, rows[id].status);
      var active := set id | id in order && IsActive(RestoredStatus(c, rows[id].status));
      (Empty().(
         info := map id | id in order :: Info(rows[id].payment, IndexOf(order, id)),
         status := status,
         active := active,
         pending := QueuedIn(rows, order),
         finished := LastOf(done, c.keep),
         nextSequence := |order|,
         interrupted := (set id | id in order && c.resolver && rows[id].status == Dispatching),
         restored := active),
       [Boot] + FailsIn(c, rows, order))
  }

  function Empty(): (q: Queue) {
    Queue(map[], map[], {}, [], [], {}, 0, 0, false, false, {}, {}, map[], {}, map[], {})
  }

  lemma {:induction false} QueuedInMembers(rows: map<Id, Row>, order: seq<Id>)
    requires forall id :: id in order ==> id in rows
    ensures forall id :: id in QueuedIn(rows, order) <==> id in order && rows[id].status == Queued
  {
    if order != [] {
      QueuedInMembers(rows, order[1..]);
      assert forall id :: id in order <==> id == order[0] || id in order[1..];
    }
  }

  /** The ledger a restore leaves: rows in flight with no resolver are now failed. */
  ghost predicate FailedIn(c: Config, l: Ledger, l': Ledger, order: seq<Id>) {
    && l' == l.(rows := l'.rows)
    && l'.rows.Keys == l.rows.Keys
    && forall id :: id in l.rows ==>
         l'.rows[id] == l.rows[id].(status := if id in order then RestoredStatus(c, l.rows[id].status) else l.rows[id].status)
  }

  lemma {:induction false} FailsInGood(c: Config, l: Ledger, order: seq<Id>)
    requires forall id :: id in order ==> id in l.rows
    requires forall i, j :: 0 <= i < j < |order| ==> order[i] != order[j]
    ensures AllowedAll(l, FailsIn(c, l.rows, order))
    ensures FailedIn(c, l, ApplyAll(l, FailsIn(c, l.rows, order)), order)
    decreases |order|
  {
    if order != [] {
      var id, rest := order[0], order[1..];
      assert forall x :: x in order <==> x == id || x in rest;
      if l.rows[id].status == Dispatching && !c.resolver {
        var l1 := Apply(l, Write(id, Failed));
        FailsInSame(c, l.rows, l1.rows, rest);
        FailsInGood(c, l1, rest);
        ApplyOne(l, Write(id, Failed));
        ApplyAllConcat(l, [Write(id, Failed)], FailsIn(c, l1.rows, rest));
      } else {
        FailsInGood(c, l, rest);
        assert FailsIn(c, l.rows, order) == FailsIn(c, l.rows, rest);
      }
    }
  }

  lemma {:induction false} FailsInSame(c: Config, rows: map<Id, Row>, rows': map<Id, Row>, order: seq<Id>)
    requires forall id :: id in order ==> id in rows && id in rows' && rows'[id] == rows[id]
    ensures FailsIn(c, rows, order) == FailsIn(c, rows', order)
  {
    if order != [] { FailsInSame(c, rows, rows', order[1..]); }
  }

  lemma {:induction false} QueuedInOrdered(
      rows: map<Id, Row>, order: seq<Id>, from: nat, info: map<Id, Info>)
    requires IsRestoreOrder(rows, order) && from <= |order|
    requires forall i :: 0 <= i < |order| ==> order[i] in info && info[order[i]] == Info(rows[order[i]].payment, i)
    ensures InDispatchOrder(info, QueuedIn(rows, order[from..]))
    decreases |order| - from
  {
    if from < |order| {
      QueuedInOrdered(rows, order, from + 1, info);
      assert order[from..][1..] == order[from + 1..];
      var rest := QueuedIn(rows, order[from + 1..]);
      QueuedInMembers(rows, order[from + 1..]);
      forall id | id in rest ensures id in info && Precedes(info[order[from]], info[id]) {
        var j :| from + 1 <= j < |order| && order[j] == id;
      }
    }
  }

  lemma RestoreKnown(c: Config, rows: map<Id, Row>, order: seq<Id>, done: seq<Id>)
    requires IsRestoreOrder(rows, order) && c.storage
    ensures var q := Restore(c, rows, order, done).0;
            && Known(q.info, q.status, q.nextSequence)
            && InDispatchOrder(q.info, q.pending) && PendingExact(q.status, q.pending)
  {
    hide QueuedIn, FailsIn, LastOf;
    var q := Restore(c, rows, order, done).0;
    forall i | 0 <= i < |order| ensures IndexOf(order, order[i]) == i { assert order[i] in order; }
    QueuedInOrdered(rows, order, 0, q.info);
    assert order[0..] == order;
    QueuedInMembers(rows, order);
    forall x, y | x in q.info && y in q.info && q.info[x].sequence == q.info[y].sequence ensures x == y {
      assert order[q.info[x].sequence] == x && order[q.info[y].sequence] == y;
    }
  }

  lemma RestoreOwners(c: Config, rows: map<Id, Row>, order: seq<Id>, done: seq<Id>)
    requires IsRestoreOrder(rows, order) && c.storage
    ensures var q := Restore(c, rows, order, done).0;
            && OneOwner(q.status, OwningOf(q)) && ActiveExact(q.status, q.active)
            && SlotsExact(c, q.activeCount, q.running) && ResolverOk(c, OwningOf(q)) && PhaseOk(q)
  {
    hide QueuedIn, FailsIn, LastOf, IndexOf;
    var q := Restore(c, rows, order, done).0;
    forall x ensures Owners(OwningOf(q), x) == if Is(q.status, x, Dispatching) then 1 else 0 {}
  }

  lemma RestoreHistory(c: Config, rows: map<Id, Row>, order: seq<Id>, done: seq<Id>)
    requires IsRestoreOrder(rows, order) && c.storage
    requires forall id :: id in done ==> id in order && !IsActive(RestoredStatus(c, rows[id].status))
    ensures var q := Restore(c, rows, order, done).0; HistoryOk(q.status, q.finished, q.unknownOutcomes)
  {
    hide QueuedIn, FailsIn, IndexOf;
    LastOfMembers(done, c.keep);
  }

  lemma RestoreValid(c: Config, rows: map<Id, Row>, order: seq<Id>, done: seq<Id>)
    requires IsRestoreOrder(rows, order)
    requires forall id :: id in done ==> id in order && !IsActive(RestoredStatus(c, rows[id].status))
    ensures Valid(c, Restore(c, rows, order, done).0)
  {
    if c.storage {
      hide IsRestoreOrder, Restore;
      RestoreKnown(c, rows, order, done);
      RestoreOwners(c, rows, order, done);
      RestoreHistory(c, rows, order, done);
    } else {
      forall x ensures Owners(OwningOf(Empty()), x) == 0 {}
    }
  }

  lemma RestoreAgrees(c: Config, l: Ledger, l': Ledger, order: seq<Id>, done: seq<Id>)
    requires Sound(l) && l.sentHere == {} && c.storage && IsRestoreOrder(l.rows, order) && FailedIn(c, l, l', order)
    ensures var q := Restore(c, l.rows, order, done).0;
            Agrees(c, q.status, l') && SentOnce(OwningOf(q), l') && Sound(l')
  {
    hide QueuedIn, FailsIn, LastOf, IndexOf;
  }

  /** A restart restores every row that was queued or dispatching, and sends nothing. */
  lemma RestoreGood(c: Config, l: Ledger, order: seq<Id>, done: seq<Id>)
    requires Sound(l) && IsRestoreOrder(l.rows, order)
    requires forall id :: id in done ==> id in order && !IsActive(RestoredStatus(c, l.rows[id].status))
    ensures var (q, es) := Restore(c, l.rows, order, done); AllowedAll(l, es) && Good(c, q, ApplyAll(l, es))
  {
    var l0 := Apply(l, Boot);
    ApplyOne(l, Boot);
    RestoreValid(c, l.rows, order, done);
    if c.storage {
      FailsInGood(c, l0, order);
      ApplyAllConcat(l, [Boot], FailsIn(c, l.rows, order));
      RestoreAgrees(c, l0, ApplyAll(l0, FailsIn(c, l.rows, order)), order, done);
      hide Valid, Agrees, SentOnce, Sound, AllowedAll, ApplyAll;
    } else {
      hide Valid;
    }
  }

  // ----- any operation -----

  datatype Op =
    | OpEnqueue(id: Id, payment: Payment, answers: seq<bool>)
    | OpCancel(id: Id)
    | OpStart(refusals: set<Id>, answers: seq<bool>)
    | OpPoke(answers: seq<bool>)
    | OpResettle(refusals: set<Id>)
    | OpStop
    | OpEndDispatch(id: Id, result: PayResult, refused: bool, answers: seq<bool>)
    | OpAnswer(id: Id, verdict: Verdict, answers: seq<bool>)
    | OpRefuse(id: Id)
    | OpPrune(listed: set<Id>, order: seq<Id>)

  /** An id is new when enqueued; a continuation runs only where one is suspended; a prune lists what it removes. */
  ghost predicate Enabled(q: Queue, l: Ledger, op: Op) {
    match op
    case OpEnqueue(id, _, _) => id !in l.seen
    case OpEndDispatch(id, _, _, _) => id in q.running && q.activeCount > 0
    case OpAnswer(id, _, _) => id in q.asks && id in q.info
    case OpRefuse(id) => id in q.asks
    case OpPrune(listed, order) => Enumerates(order, Removed(q, listed))
    case _ => true
  }

  ghost function Perform(c: Config, q: Queue, l: Ledger, op: Op): (r: (Queue, seq<Effect>))
    requires Enabled(q, l, op) && forall id :: id in q.pending ==> id in q.info
  {
    match op
    case OpEnqueue(id, p, answers) => Enqueue(c, q, id, p, answers)
    case OpCancel(id) => Cancel(q, id)
    case OpStart(refusals, answers) => Start(c, q, refusals, answers)
    case OpPoke(answers) => Poke(c, q, answers)
    case OpResettle(refusals) => (Resettle(c, q, refusals), [])
    case OpStop => (q.(stopped := true), [])
    case OpEndDispatch(id, result, refused, answers) => EndDispatch(c, q, id, result, refused, answers)
    case OpAnswer(id, verdict, answers) => Answer(c, q, id, verdict, answers)
    case OpRefuse(id) => (Refuse(q, id), [])
    case OpPrune(listed, order) => Prune(c, q, order)
  }

  lemma StopGood(c: Config, q: Queue, l: Ledger)
    requires Good(c, q, l)
    ensures Good(c, q.(stopped := true), l)
  {
    hide Known, InDispatchOrder, PendingExact, ActiveExact, OneOwner, Agrees, SentOnce, Sound, HistoryOk, SlotsExact;
  }

  /** Every operation keeps the invariant, and each of its effects is allowed when it happens. */
  lemma PerformGood(c: Config, q: Queue, l: Ledger, op: Op)
    requires Good(c, q, l) && Enabled(q, l, op)
    ensures forall id :: id in q.pending ==> id in q.info
    ensures var (q', es) := Perform(c, q, l, op); AllowedAll(l, es) && Good(c, q', ApplyAll(l, es))
  {
    hide Good, AllowedAll, ApplyAll, Start, Enqueue, Cancel, Poke, Resettle, EndDispatch, Answer, Refuse, Prune;
    PendingKnown(c, q, l);
    NoEffects(l);
    match op
    case OpEnqueue(id, p, answers) => EnqueueGood(c, q, id, p, answers, l);
    case OpCancel(id) => CancelGood(c, q, id, l);
    case OpStart(refusals, answers) => StartGood(c, q, refusals, answers, l);
    case OpPoke(answers) => PokeGood(c, q, answers, l);
    case OpResettle(refusals) => ResettleGood(c, q, refusals, l);
    case OpStop => StopGood(c, q, l);
    case OpEndDispatch(id, result, refused, answers) => EndDispatchGood(c, q, id, result, refused, answers, l);
    case OpAnswer(id, verdict, answers) => AnswerGood(c, q, id, verdict, answers, l);
    case OpRefuse(id) => RefuseGood(c, q, id, l);
    case OpPrune(listed, order) => PruneGood(c, q, listed, order, l);
  }

  // ----- whole histories -----

  /** A process, if one is up, and everything that ever happened. */
  datatype World = World(queue: Option<Queue>, history: seq<Effect>)

  ghost function LedgerOf(history: seq<Effect>): Ledger {
    ApplyAll(Ledger(map[], {}, {}, {}), history)
  }

  /** A new process reads the rows; it may stop at any point while doing so. */
  ghost predicate BootStep(c: Config, w: World, order: seq<Id>, done: seq<Id>, w': World) {
    var rows := LedgerOf(w.history).rows;
    && w.queue.None? && IsRestoreOrder(rows, order)
    && (forall id :: id in done ==> id in order && !IsActive(RestoredStatus(c, rows[id].status)))
    && var (q, es) := Restore(c, rows, order, done);
       || w' == World(Some(q), w.history + es)
       || exists k :: 0 <= k <= |es| && w' == World(None, w.history + es[..k])
  }

  /** One operation, carried out whole or cut short after any of its effects. */
  ghost predicate OpStep(c: Config, w: World, op: Op, w': World) {
    && w.queue.Some?
    && (forall id :: id in w.queue.value.pending ==> id in w.queue.value.info)
    && Enabled(w.queue.value, LedgerOf(w.history), op)
    && var (q, es) := Perform(c, w.queue.value, LedgerOf(w.history), op);
       || w' == World(Some(q), w.history + es)
       || exists k :: 0 <= k <= |es| && w' == World(None, w.history + es[..k])
  }

  ghost predicate Next(c: Config, w: World, w': World) {
    || (exists order, done :: BootStep(c, w, order, done, w'))
    || (exists op :: OpStep(c, w, op, w'))
  }

  ghost predicate IsRun(c: Config, ws: seq<World>) {
    && ws != [] && ws[0] == World(None, [])
    && forall i :: 0 <= i < |ws| - 1 ==> Next(c, ws[i], ws[i + 1])
  }

  ghost predicate WorldInv(c: Config, w: World) {
    && AllowedAll(Ledger(map[], {}, {}, {}), w.history)
    && Sound(LedgerOf(w.history))
    && (w.queue.Some? ==> Good(c, w.queue.value, LedgerOf(w.history)))
  }

  lemma ApplySound(l: Ledger, e: Effect)
    requires Sound(l) && Allowed(l, e)
    ensures Sound(Apply(l, e))
  {
  }

  lemma {:induction false} ApplyAllSound(l: Ledger, es: seq<Effect>)
    requires Sound(l) && AllowedAll(l, es)
    ensures Sound(ApplyAll(l, es))
    decreases |es|
  {
    if es != [] {
      ApplySound(l, es[0]);
      ApplyAllSound(Apply(l, es[0]), es[1..]);
    }
  }

  /** A history stays allowed and sound when an operation is cut short. */
  lemma CutShort(history: seq<Effect>, es: seq<Effect>, k: nat)
    requires AllowedAll(Ledger(map[], {}, {}, {}), history) && Sound(LedgerOf(history))
    requires AllowedAll(LedgerOf(history), es) && k <= |es|
    ensures AllowedAll(Ledger(map[], {}, {}, {}), history + es[..k]) && Sound(LedgerOf(history + es[..k]))
    ensures LedgerOf(history + es[..k]) == ApplyAll(LedgerOf(history), es[..k])
  {
    assert es == es[..k] + es[k..];
    ApplyAllConcat(LedgerOf(history), es[..k], es[k..]);
    ApplyAllSound(LedgerOf(history), es[..k]);
    ApplyAllConcat(Ledger(map[], {}, {}, {}), history, es[..k]);
  }

  lemma NextKeepsInv(c: Config, w: World, w': World)
    requires WorldInv(c, w) && Next(c, w, w')
    ensures WorldInv(c, w')
  {
    hide Good, Sound, AllowedAll, Restore, Perform, Enabled;
    var l := LedgerOf(w.history);
    if order, done :| BootStep(c, w, order, done, w') {
      RestoreGood(c, l, order, done);
      var es := Restore(c, l.rows, order, done).1;
      CutOrWhole(w, w', es);
    } else {
      var op :| OpStep(c, w, op, w');
      PerformGood(c, w.queue.value, l, op);
      var es := Perform(c, w.queue.value, l, op).1;
      CutOrWhole(w, w', es);
    }
  }

  lemma CutOrWhole(w: World, w': World, es: seq<Effect>)
    requires AllowedAll(Ledger(map[], {}, {}, {}), w.history) && Sound(LedgerOf(w.history))
    requires AllowedAll(LedgerOf(w.history), es)
    requires w'.history == w.history + es || exists k :: 0 <= k <= |es| && w'.history == w.history + es[..k]
    ensures AllowedAll(Ledger(map[], {}, {}, {}), w'.history) && Sound(LedgerOf(w'.history))
    ensures w'.history == w.history + es ==> LedgerOf(w'.history) == ApplyAll(LedgerOf(w.history), es)
  {
    hide AllowedAll, ApplyAll, Sound;
    assert es[..|es|] == es;
    if w'.history == w.history + es {
      CutShort(w.history, es, |es|);
    } else {
      var k :| 0 <= k <= |es| && w'.history == w.history + es[..k];
      CutShort(w.history, es, k);
    }
  }

  /** Every reachable world satisfies the invariant. */
  lemma {:induction false} RunInv(c: Config, ws: seq<World>, i: nat)
    requires IsRun(c, ws) && i < |ws|
    ensures WorldInv(c, ws[i])
  {
    hide WorldInv, Next;
    if i == 0 {
      FirstWorld(c);
    } else {
      RunInv(c, ws, i - 1);
      assert Next(c, ws[i - 1], ws[i - 1 + 1]);
      NextKeepsInv(c, ws[i - 1], ws[i]);
    }
  }

  lemma FirstWorld(c: Config)
    ensures WorldInv(c, World(None, []))
  {
  }

  // ----- what a history can hold -----

  lemma {:induction false} AllowedAt(l: Ledger, es: seq<Effect>, k: nat)
    requires AllowedAll(l, es) && k < |es|
    ensures Allowed(ApplyAll(l, es[..k]), es[k])
    ensures AllowedAll(ApplyAll(l, es[..k + 1]), es[k + 1..])
    ensures ApplyAll(l, es[..k + 1]) == Apply(ApplyAll(l, es[..k]), es[k])
  {
    assert es == es[..k] + es[k..] && es[k..][1..] == es[k + 1..];
    ApplyAllConcat(l, es[..k], es[k..]);
    assert es[..k + 1] == es[..k] + [es[k]];
    ApplyAllConcat(l, es[..k], [es[k]]);
    ApplyOne(ApplyAll(l, es[..k]), es[k]);
  }

  lemma {:induction false} StaysOpen(l: Ledger, es: seq<Effect>, id: Id)
    requires id in l.open && Unpaid(id) !in es
    ensures id in ApplyAll(l, es).open
    decreases |es|
  {
    if es != [] {
      assert es[0] != Unpaid(id);
      StaysOpen(Apply(l, es[0]), es[1..], id);
    }
  }

  lemma {:induction false} StaysSent(l: Ledger, es: seq<Effect>, id: Id)
    requires id in l.sentHere && Boot !in es
    ensures id in ApplyAll(l, es).sentHere
    decreases |es|
  {
    if es != [] {
      assert es[0] != Boot;
      StaysSent(Apply(l, es[0]), es[1..], id);
    }
  }

  /** The entry is known and neither queued nor dispatching. */
  ghost predicate Closed(l: Ledger, id: Id) {
    id in l.seen && (id in l.rows ==> !IsActive(l.rows[id].status))
  }

  lemma {:induction false} ClosedNeverSent(l: Ledger, es: seq<Effect>, id: Id)
    requires Closed(l, id) && AllowedAll(l, es)
    ensures Call(id) !in es
    decreases |es|
  {
    if es != [] {
      ClosedNeverSent(Apply(l, es[0]), es[1..], id);
      assert es == [es[0]] + es[1..];
    }
  }

  /** Two points of an allowed history, and the stretch between them. */
  lemma Between(history: seq<Effect>, a: nat, b: nat) returns (l: Ledger, mid: seq<Effect>)
    requires AllowedAll(Ledger(map[], {}, {}, {}), history) && a < b < |history|
    ensures mid == history[a + 1..b]
    ensures exists before :: Allowed(before, history[a]) && l == Apply(before, history[a])
    ensures Allowed(ApplyAll(l, mid), history[b])
  {
    var start := Ledger(map[], {}, {}, {});
    AllowedAt(start, history, a);
    AllowedAt(start, history, b);
    mid := history[a + 1..b];
    l := ApplyAll(start, history[..a + 1]);
    assert history[..b] == history[..a + 1] + mid;
    ApplyAllConcat(start, history[..a + 1], mid);
  }

  /**
   * Over every run, whatever crashes and restarts it holds: the payer is called
   * again for an entry only after the resolver answered 'unpaid' for it, and
   * never twice by one process.
   */
  lemma SentAgainOnlyAfterUnpaid(c: Config, ws: seq<World>, i: nat, id: Id, a: nat, b: nat)
    requires IsRun(c, ws) && i < |ws| && a < b < |ws[i].history|
    requires ws[i].history[a] == Call(id) && ws[i].history[b] == Call(id)
    ensures Unpaid(id) in ws[i].history[a + 1..b]
    ensures Boot in ws[i].history[a + 1..b]
  {
    RunInv(c, ws, i);
    var l, mid := Between(ws[i].history, a, b);
    if Unpaid(id) !in mid { StaysOpen(l, mid, id); }
    if Boot !in mid { StaysSent(l, mid, id); }
  }

  /** Once an entry is recorded cancelled, completed or failed, it is never sent. */
  lemma FinishedNeverSent(c: Config, ws: seq<World>, i: nat, id: Id, s: Status, a: nat, b: nat)
    requires IsRun(c, ws) && i < |ws| && a < b < |ws[i].history|
    requires ws[i].history[a] == Write(id, s) && !IsActive(s)
    ensures ws[i].history[b] != Call(id)
  {
    RunInv(c, ws, i);
    var start, h := Ledger(map[], {}, {}, {}), ws[i].history;
    AllowedAt(start, h, a);
    ApplyAllSeen(start, h[..a]);
    ClosedNeverSent(ApplyAll(start, h[..a + 1]), h[a + 1..], id);
    assert h[b] == h[a + 1..][b - a - 1];
  }

  lemma {:induction false} ApplyAllSeen(l: Ledger, es: seq<Effect>)
    requires l.rows.Keys <= l.seen
    ensures ApplyAll(l, es).rows.Keys <= ApplyAll(l, es).seen
    decreases |es|
  {
    if es != [] { ApplyAllSeen(Apply(l, es[0]), es[1..]); }
  }

  /** What holds of the queue in every reachable world. */
  lemma ReachableQueue(c: Config, ws: seq<World>, i: nat, id: Id)
    requires IsRun(c, ws) && i < |ws| && ws[i].queue.Some?
    ensures var q := ws[i].queue.value;
            && (Is(q.status, id, Queued) <==> id in q.pending)
            && Owners(OwningOf(q), id) == (if Is(q.status, id, Dispatching) then 1 else 0)
            && q.activeCount == |q.running| <= c.maxConcurrent
            && InDispatchOrder(q.info, q.pending)
            && (id in q.active <==> id in q.status && IsActive(q.status[id]))
  {
    RunInv(c, ws, i);
    assert Owners(OwningOf(ws[i].queue.value), id) >= 0;
  }

  /** With storage, no queued or dispatching entry is ever dropped: memory holds every such row. */
  lemma NothingDropped(c: Config, ws: seq<World>, i: nat, id: Id)
    requires IsRun(c, ws) && i < |ws| && ws[i].queue.Some? && c.storage
    requires var rows := LedgerOf(ws[i].history).rows; id in rows && IsActive(rows[id].status)
    ensures var q := ws[i].queue.value;
            id in q.active && Is(q.status, id, LedgerOf(ws[i].history).rows[id].status)
  {
    RunInv(c, ws, i);
  }

  /** The entry a pass takes is the least released queued one. */
  lemma TakesLeastReleased(c: Config, q: Queue, j: nat)
    requires Valid(c, q) && j < |q.pending| && q.pending[j] !in q.restored
    ensures var i := FirstReleased(q.pending, q.restored);
            && i <= j && q.pending[i] in q.info && q.pending[j] in q.info
            && var a, b := q.info[q.pending[i]], q.info[q.pending[j]];
               && a.payment.priority <= b.payment.priority
               && (a.payment.priority == b.payment.priority ==> a.sequence <= b.sequence)
  {
  }

  /** However many entries retire, the history held is the last `keep` of them. */
  lemma RetainsLast(retired: seq<Id>, keep: Option<nat>, id: Id)
    ensures LastOf(LastOf(retired, keep) + [id], keep) == LastOf(retired + [id], keep)
  {
  }
}
