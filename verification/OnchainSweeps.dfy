/**
 * The durable sweep journal (src/cli/onchain-sweep.ts): a status machine per
 * sweep, its inputs held by tagged coin freezes (src/wallet/coin-control.ts), and
 * a debit admitted in the same storage transaction that marks it submitted
 * (src/cli/beignet-node.ts).
 *
 * prepare, submit and cancel run one at a time under the on-chain send lock and
 * are cut into the stretches between their awaits. In every gap other freezers
 * may act on their own tags and the wallet's coins may change; the process may
 * stop anywhere. A save lands or throws without landing. An outpoint's value is
 * fixed by the chain (`value`). A transaction stands for its own bytes and id.
 */
module OnchainSweeps {

  datatype Option<T> = None | Some(value: T)

  datatype Outpoint = Outpoint(txid: nat, vout: nat)

  datatype Id = Id(name: nat)

  datatype Address = Address(script: nat)

  datatype Output = Output(script: Address, value: int)

  datatype Tx = Tx(ins: seq<Outpoint>, outs: seq<Output>)

  /** A reviewed request in its normal form: positive bounds, distinct inputs in order. */
  datatype Request = Request(address: Address, rate: real, inputs: seq<Outpoint>, debit: int, maxFee: int)

  datatype Status = Preparing | Prepared | Submitted | Confirmed | Cancelling | Cancelled

  datatype Quote = Quote(amount: int, fee: int)

  datatype Record = Record(
    request: Request, status: Status, tx: Option<Tx>, quote: Option<Quote>, accepted: bool)

  /** Who froze a coin: the user, a sweep, or another automated holder. */
  datatype Tag = User | Sweep(id: Id) | Other(holder: nat)

  const SAFE_INTEGER: int := 9_007_199_254_740_991
  const MAX_INPUTS: nat := 10000
  const MAX_RECORDS: nat := 1000

  // ----- requests -----

  predicate Before(a: Outpoint, b: Outpoint) {
    a.txid < b.txid || (a.txid == b.txid && a.vout < b.vout)
  }

  function Insert(o: Outpoint, s: seq<Outpoint>): (r: seq<Outpoint>)
    ensures multiset(r) == multiset(s) + multiset{o}
  {
    if s == [] || !Before(s[0], o) then [o] + s
    else
      assert s == [s[0]] + s[1..];
      [s[0]] + Insert(o, s[1..])
  }

  function InOrder(s: seq<Outpoint>): (r: seq<Outpoint>)
    ensures multiset(r) == multiset(s)
  {
    if s == [] then []
    else
      assert s == [s[0]] + s[1..];
      Insert(s[0], InOrder(s[1..]))
  }

  ghost predicate Ordered(s: seq<Outpoint>) {
    forall i, j :: 0 <= i < j < |s| ==> !Before(s[j], s[i])
  }

  predicate Distinct(s: seq<Outpoint>) {
    forall i, j :: 0 <= i < j < |s| ==> s[i] != s[j]
  }

  predicate BoundsOk(r: Request) {
    r.rate > 0.0 && 0 < r.debit <= SAFE_INTEGER && 0 <= r.maxFee <= SAFE_INTEGER && r.maxFee < r.debit
  }

  lemma {:induction false} InsertOrdered(o: Outpoint, s: seq<Outpoint>)
    requires Ordered(s)
    ensures Ordered(Insert(o, s))
  {
    if s != [] && Before(s[0], o) {
      InsertOrdered(o, s[1..]);
      var rest := Insert(o, s[1..]);
      forall j | 0 <= j < |rest| ensures !Before(rest[j], s[0]) {
        assert rest[j] in multiset(s[1..]) + multiset{o};
      }
    }
  }

  lemma {:induction false} InOrderOrdered(s: seq<Outpoint>)
    ensures Ordered(InOrder(s))
  {
    if s != [] {
      InOrderOrdered(s[1..]);
      InsertOrdered(s[0], InOrder(s[1..]));
    }
  }

  lemma SameLength(s: seq<Outpoint>, t: seq<Outpoint>)
    requires multiset(s) == multiset(t)
    ensures |s| == |t|
  {
    assert |s| == |multiset(s)| == |multiset(t)| == |t|;
  }

  lemma RemoveOne(s: seq<Outpoint>, i: nat)
    requires i < |s|
    ensures multiset(s[..i] + s[i + 1..]) == multiset(s) - multiset{s[i]}
  {
    assert s == s[..i] + [s[i]] + s[i + 1..];
  }

  lemma HeadOff(s: seq<Outpoint>)
    requires s != []
    ensures multiset(s[1..]) == multiset(s) - multiset{s[0]} && s == [s[0]] + s[1..]
  {
    assert s == [s[0]] + s[1..];
  }

  lemma TailOrdered(s: seq<Outpoint>)
    requires s != [] && Ordered(s)
    ensures Ordered(s[1..])
  {
  }

  /** Where the head of one list stands in a rearrangement of it. */
  lemma PairHead(s: seq<Outpoint>, t: seq<Outpoint>) returns (i: nat)
    requires s != [] && multiset(s) == multiset(t)
    ensures i < |t| && t[i] == s[0]
    ensures multiset(s[1..]) == multiset(t[..i] + t[i + 1..])
  {
    assert s[0] in multiset(t);
    i :| 0 <= i < |t| && t[i] == s[0];
    RemoveOne(t, i);
    HeadOff(s);
  }

  lemma HeadsMeet(s: seq<Outpoint>, t: seq<Outpoint>)
    requires Ordered(s) && Ordered(t) && multiset(s) == multiset(t) && s != [] && t != []
    ensures s[0] == t[0]
  {
    assert s[0] in multiset(t) && t[0] in multiset(s);
  }

  lemma {:induction false} OrderedUnique(s: seq<Outpoint>, t: seq<Outpoint>)
    requires Ordered(s) && Ordered(t) && multiset(s) == multiset(t)
    ensures s == t
  {
    SameLength(s, t);
    if s != [] {
      HeadsMeet(s, t);
      HeadOff(s);
      HeadOff(t);
      TailOrdered(s);
      TailOrdered(t);
      hide Ordered;
      OrderedUnique(s[1..], t[1..]);
    }
  }

  /** No element occurs twice. */
  ghost predicate Single(m: multiset<Outpoint>) {
    forall o :: m[o] <= 1
  }

  lemma {:induction false} DistinctSingle(s: seq<Outpoint>)
    ensures Distinct(s) <==> Single(multiset(s))
  {
    if s != [] {
      HeadOff(s);
      DistinctSingle(s[1..]);
      HeadSingle(s, multiset(s), multiset(s[1..]));
    }
  }

  lemma HeadSingle(s: seq<Outpoint>, m: multiset<Outpoint>, rest: multiset<Outpoint>)
    requires s != [] && rest == m - multiset{s[0]} && s[0] in m && (s[0] in rest <==> s[0] in s[1..])
    requires Distinct(s[1..]) <==> Single(rest)
    ensures Distinct(s) <==> Single(m)
  {
    assert m[s[0]] == rest[s[0]] + 1;
    assert forall o :: o != s[0] ==> m[o] == rest[o];
    if Distinct(s) {
      assert s[0] !in s[1..];
    } else {
      var i, j :| 0 <= i < j < |s| && s[i] == s[j];
      if i == 0 {
        assert s[1..][j - 1] == s[0];
      } else {
        assert s[1..][i - 1] == s[1..][j - 1];
      }
    }
  }

  /** A refused request is one with bad bounds, no inputs, too many, or one listed twice; else its inputs are put in order. */
  function Normalize(raw: Request): (r: Option<Request>)
    ensures r.Some? <==> BoundsOk(raw) && 0 < |raw.inputs| <= MAX_INPUTS && Distinct(raw.inputs)
    ensures r.Some? ==>
      && r.value == raw.(inputs := r.value.inputs)
      && Ordered(r.value.inputs) && multiset(r.value.inputs) == multiset(raw.inputs)
      && NormalForm(r.value)
  {
    var inputs := InOrder(raw.inputs);
    InOrderOrdered(raw.inputs);
    DistinctSingle(inputs);
    DistinctSingle(raw.inputs);
    SameLength(inputs, raw.inputs);
    if !BoundsOk(raw) || raw.inputs == [] || |raw.inputs| > MAX_INPUTS || !Distinct(inputs) then None
    else Some(raw.(inputs := inputs))
  }

  ghost predicate NormalForm(r: Request) {
    BoundsOk(r) && 0 < |r.inputs| <= MAX_INPUTS && Distinct(r.inputs) && Ordered(r.inputs)
  }

  /** A normal request is its own normal form. */
  lemma NormalFixed(r: Request)
    requires NormalForm(r)
    ensures Normalize(r) == Some(r)
  {
    InOrderOrdered(r.inputs);
    OrderedUnique(InOrder(r.inputs), r.inputs);
  }

  /** The order in which a caller lists the reviewed inputs does not matter: a retry is the same request. */
  lemma NormalizeOrderFree(a: Request, b: Request)
    requires b == a.(inputs := b.inputs) && multiset(a.inputs) == multiset(b.inputs)
    ensures Normalize(a) == Normalize(b)
  {
    InOrderOrdered(a.inputs);
    InOrderOrdered(b.inputs);
    OrderedUnique(InOrder(a.inputs), InOrder(b.inputs));
    assert |a.inputs| == |multiset(a.inputs)| == |b.inputs|;
  }

  // ----- the signed transaction -----

  function Paid(outs: seq<Output>): int {
    if outs == [] then 0 else outs[0].value + Paid(outs[1..])
  }

  predicate QuoteOk(q: Option<Quote>, amount: int, fee: int) {
    q.Some? ==> q.value.amount == amount && q.value.fee == fee
  }

  /** The transaction is the reviewed one: its inputs, its one output and its fee. */
  predicate Verified(r: Record) {
    && r.tx.Some?
    && var tx := r.tx.value;
       var fee := r.request.debit - Paid(tx.outs);
       && multiset(tx.ins) == multiset(r.request.inputs)
       && |tx.outs| == 1
       && tx.outs[0].script == r.request.address
       && tx.outs[0].value > 0
       && 0 <= fee <= r.request.maxFee
       && QuoteOk(r.quote, tx.outs[0].value, fee)
  }

  function Total(value: Outpoint -> nat, s: seq<Outpoint>): nat {
    if s == [] then 0 else value(s[0]) + Total(value, s[1..])
  }

  // ----- the world -----

  datatype Phase =
    | Idle
    | Reserving(id: Id, done: nat, frozen: bool)
    | Building(id: Id)
    | Admitting(id: Id)
    | Sending(id: Id)
    | Sent(id: Id)
    | Releasing(id: Id, done: nat)

  /** `admitted`: the debits recorded, in order. `sent`: the transactions broadcast. */
  datatype World = World(
    journal: map<Id, Record>,
    freezes: map<Outpoint, Tag>,
    utxos: set<Outpoint>,
    admitted: seq<(Id, int)>,
    sent: set<(Id, Tx)>,
    phase: Phase)

  predicate Live(s: Status) { s == Prepared || s == Submitted || s == Confirmed }

  predicate Out(s: Status) { s == Submitted || s == Confirmed }

  /** No reviewed input is gone or held by another. */
  predicate Resolves(w: World, id: Id, inputs: seq<Outpoint>) {
    forall i :: 0 <= i < |inputs| ==>
      inputs[i] in w.utxos && (inputs[i] in w.freezes ==> w.freezes[inputs[i]] == Sweep(id))
  }

  /** Only cancelled sweeps let go of an input. */
  predicate Mutable(w: World, o: Outpoint) {
    forall id :: id in w.journal && w.journal[id].status != Cancelled ==> o !in w.journal[id].request.inputs
  }

  function SetRecord(w: World, id: Id, r: Record): World {
    w.(journal := w.journal[id := r])
  }

  function Stop(w: World): World {
    w.(phase := Idle)
  }

  /** What prepare is to work on: the record on file, or a new one. */
  function Draft(w: World, id: Id, request: Request): (r: Record) {
    if id in w.journal then w.journal[id] else Record(request, Preparing, None, None, false)
  }

  predicate MayPrepare(w: World, value: Outpoint -> nat, id: Id, request: Request) {
    && (id in w.journal ==> w.journal[id].request == request && w.journal[id].status == Preparing)
    && Resolves(w, id, request.inputs)
    && Total(value, request.inputs) == request.debit
    && (id !in w.journal ==> |w.journal| < MAX_RECORDS)
  }

  function BeginPrepare(w: World, value: Outpoint -> nat, id: Id, request: Request, saved: bool): (w': World) {
    if !MayPrepare(w, value, id, request) || (id !in w.journal && !saved) then w
    else SetRecord(w, id, Draft(w, id, request)).(phase := Reserving(id, 0, false))
  }

  /** One freezeUtxoIfUnfrozen. */
  function FreezeOne(w: World, id: Id, done: nat, o: Outpoint, saved: bool): (w': World) {
    if o !in w.utxos then Stop(w)
    else if o in w.freezes then w.(phase := Reserving(id, done, true))
    else if !saved then Stop(w)
    else w.(freezes := w.freezes[o := Sweep(id)], phase := Reserving(id, done, true))
  }

  /** A competing freeze may have won while the wallet's write lock was awaited. */
  function Recheck(w: World, id: Id, done: nat): (w': World)
    requires id in w.journal
  {
    var r := w.journal[id];
    if !Resolves(w, id, r.request.inputs) then Stop(w)
    else if done + 1 < |r.request.inputs| then w.(phase := Reserving(id, done + 1, false))
    else if r.status == Preparing then w.(phase := Building(id))
    else w.(phase := Admitting(id))
  }

  function Signed(r: Record, tx: Tx): (r': Record) {
    if tx.outs == [] then r.(tx := Some(tx))
    else
      var amount := tx.outs[0].value;
      r.(tx := Some(tx), status := Prepared, quote := Some(Quote(amount, r.request.debit - amount)))
  }

  /** The wallet built and signed `tx`, or failed to. */
  function FinishPrepare(w: World, id: Id, tx: Option<Tx>, saved: bool): (w': World)
    requires id in w.journal
  {
    var r := w.journal[id];
    if tx.None? || !Resolves(w, id, r.request.inputs) || !Verified(r.(tx := tx)) || !saved then Stop(w)
    else Stop(SetRecord(w, id, Signed(r, tx.value)))
  }

  /** `mined`: the wallet sees the transaction in a block. */
  function BeginSubmit(w: World, id: Id, mined: bool, saved: bool): (w': World) {
    if id !in w.journal || !Live(w.journal[id].status) then w
    else
      var r := w.journal[id];
      if Out(r.status) && mined then (if saved then SetRecord(w, id, r.(status := Confirmed)) else w)
      else if !Verified(r) then w
      else if r.status == Prepared then
        (if Resolves(w, id, r.request.inputs) then w.(phase := Reserving(id, 0, false)) else w)
      else if r.status == Confirmed then
        (if saved then SetRecord(w, id, r.(status := Submitted)).(phase := Sending(id)) else w)
      else w.(phase := Sending(id))
  }

  /** One storage transaction records the debit and marks the sweep submitted. */
  function Admit(w: World, id: Id, allowed: bool, saved: bool): (w': World)
    requires id in w.journal
  {
    if !allowed || !saved then Stop(w)
    else
      var r := w.journal[id];
      SetRecord(w, id, r.(status := Submitted)).(
        admitted := w.admitted + [(id, r.request.debit)], phase := Sending(id))
  }

  function Send(w: World, id: Id): (w': World)
    requires id in w.journal && w.journal[id].tx.Some?
  {
    w.(sent := w.sent + {(id, w.journal[id].tx.value)}, phase := Sent(id))
  }

  function AfterSend(w: World, id: Id, accepted: bool, saved: bool): (w': World)
    requires id in w.journal
  {
    if !saved then Stop(w)
    else Stop(SetRecord(w, id, w.journal[id].(accepted := w.journal[id].accepted || accepted)))
  }

  function BeginCancel(w: World, id: Id, saved: bool): (w': World) {
    if id !in w.journal || Out(w.journal[id].status) || !saved then w
    else SetRecord(w, id, w.journal[id].(status := Cancelling)).(phase := Releasing(id, 0))
  }

  /** One unfreezeUtxoIfTagged: another's freeze is left alone. */
  function ReleaseOne(w: World, id: Id, done: nat, o: Outpoint, saved: bool): (w': World) {
    if o !in w.freezes || w.freezes[o] != Sweep(id) then w.(phase := Releasing(id, done + 1))
    else if !saved then Stop(w)
    else w.(freezes := w.freezes - {o}, phase := Releasing(id, done + 1))
  }

  function FinishCancel(w: World, id: Id, saved: bool): (w': World)
    requires id in w.journal
  {
    if !saved then Stop(w) else Stop(SetRecord(w, id, w.journal[id].(status := Cancelled)))
  }

  // ----- the others -----

  datatype Act = Take(o: Outpoint, holder: nat) | LetGo(o: Outpoint, holder: nat) | Coins(utxos: set<Outpoint>)

  /** Another automated freezer freezes what is free and lifts only its own tag. */
  function Perform(w: World, a: Act): (w': World) {
    match a
    case Take(o, holder) =>
      if o in w.utxos && o !in w.freezes then w.(freezes := w.freezes[o := Other(holder)]) else w
    case LetGo(o, holder) =>
      if o in w.freezes && w.freezes[o] == Other(holder) then w.(freezes := w.freezes - {o}) else w
    case Coins(utxos) => w.(utxos := utxos)
  }

  /** The user's freeze, under the send lock: it also takes over a tagged freeze. */
  function UserFreeze(w: World, o: Outpoint): (w': World) {
    if Mutable(w, o) && o in w.utxos then w.(freezes := w.freezes[o := User]) else w
  }

  function UserUnfreeze(w: World, o: Outpoint): (w': World) {
    if Mutable(w, o) then w.(freezes := w.freezes - {o}) else w
  }

  datatype Step =
    | Prepare(id: Id, request: Request, saved: bool)
    | Freeze(saved: bool)
    | Check
    | Built(tx: Option<Tx>, saved: bool)
    | Submit(id: Id, mined: bool, saved: bool)
    | Charge(allowed: bool, saved: bool)
    | Broadcast
    | Answered(accepted: bool, saved: bool)
    | Cancel(id: Id, saved: bool)
    | Release(saved: bool)
    | Close(saved: bool)
    | Others(act: Act)
    | FreezeByUser(o: Outpoint)
    | UnfreezeByUser(o: Outpoint)
    | Crash

  ghost predicate Next(value: Outpoint -> nat, w: World, s: Step, w': World) {
    match s
    case Prepare(id, request, saved) =>
      w.phase == Idle && Normalize(request).Some? && w' == BeginPrepare(w, value, id, Normalize(request).value, saved)
    case Freeze(saved) =>
      && w.phase.Reserving? && !w.phase.frozen && w.phase.id in w.journal
      && var inputs := w.journal[w.phase.id].request.inputs;
         w.phase.done < |inputs| && w' == FreezeOne(w, w.phase.id, w.phase.done, inputs[w.phase.done], saved)
    case Check =>
      w.phase.Reserving? && w.phase.frozen && w.phase.id in w.journal && w' == Recheck(w, w.phase.id, w.phase.done)
    case Built(tx, saved) => w.phase.Building? && w.phase.id in w.journal && w' == FinishPrepare(w, w.phase.id, tx, saved)
    case Submit(id, mined, saved) => w.phase == Idle && w' == BeginSubmit(w, id, mined, saved)
    case Charge(allowed, saved) =>
      w.phase.Admitting? && w.phase.id in w.journal && w' == Admit(w, w.phase.id, allowed, saved)
    case Broadcast =>
      && w.phase.Sending? && w.phase.id in w.journal && w.journal[w.phase.id].tx.Some?
      && w' == Send(w, w.phase.id)
    case Answered(accepted, saved) =>
      w.phase.Sent? && w.phase.id in w.journal && w' == AfterSend(w, w.phase.id, accepted, saved)
    case Cancel(id, saved) => w.phase == Idle && w' == BeginCancel(w, id, saved)
    case Release(saved) =>
      && w.phase.Releasing? && w.phase.id in w.journal
      && var inputs := w.journal[w.phase.id].request.inputs;
         w.phase.done < |inputs| && w' == ReleaseOne(w, w.phase.id, w.phase.done, inputs[w.phase.done], saved)
    case Close(saved) =>
      && w.phase.Releasing? && w.phase.id in w.journal
      && w.phase.done == |w.journal[w.phase.id].request.inputs| && w' == FinishCancel(w, w.phase.id, saved)
    case Others(act) => w' == Perform(w, act)
    case FreezeByUser(o) => w.phase == Idle && w' == UserFreeze(w, o)
    case UnfreezeByUser(o) => w.phase == Idle && w' == UserUnfreeze(w, o)
    case Crash => w' == Stop(w)
  }

  // ----- what every step keeps -----

  ghost predicate Holds(freezes: map<Outpoint, Tag>, id: Id, o: Outpoint) {
    o in freezes && freezes[o] == Sweep(id)
  }

  ghost predicate HoldsAll(freezes: map<Outpoint, Tag>, id: Id, inputs: seq<Outpoint>) {
    forall i :: 0 <= i < |inputs| ==> Holds(freezes, id, inputs[i])
  }

  ghost predicate HoldsNone(freezes: map<Outpoint, Tag>, id: Id) {
    forall o :: !Holds(freezes, id, o)
  }

  /** A record on its own: what the reader of the journal insists on, and more. */
  ghost predicate RecordOk(value: Outpoint -> nat, r: Record) {
    && NormalForm(r.request)
    && (Live(r.status) ==> Verified(r) && Total(value, r.request.inputs) == r.request.debit && r.quote.Some?)
    && (r.status == Preparing ==> r.tx.None? && r.quote.None?)
  }

  ghost predicate RecordsOk(value: Outpoint -> nat, journal: map<Id, Record>) {
    |journal| <= MAX_RECORDS && forall id :: id in journal ==> RecordOk(value, journal[id])
  }

  /** A sweep's freeze is on an input of a sweep on file that is not cancelled. */
  ghost predicate NoStray(journal: map<Id, Record>, freezes: map<Outpoint, Tag>) {
    forall o :: o in freezes && freezes[o].Sweep? ==> Backed(journal, freezes[o].id, o)
  }

  ghost predicate Backed(journal: map<Id, Record>, id: Id, o: Outpoint) {
    id in journal && o in journal[id].request.inputs && journal[id].status != Cancelled
  }

  ghost predicate Billed(admitted: seq<(Id, int)>, id: Id) {
    exists i :: 0 <= i < |admitted| && admitted[i].0 == id
  }

  ghost predicate BilledOk(journal: map<Id, Record>, debit: (Id, int)) {
    debit.0 in journal && Out(journal[debit.0].status) && debit.1 == journal[debit.0].request.debit
  }

  /** One debit, of the reviewed amount, for each sweep that is out; none for any other. */
  ghost predicate BooksOk(journal: map<Id, Record>, admitted: seq<(Id, int)>) {
    && (forall i, j :: 0 <= i < j < |admitted| ==> admitted[i].0 != admitted[j].0)
    && (forall i :: 0 <= i < |admitted| ==> BilledOk(journal, admitted[i]))
    && (forall id :: id in journal && Out(journal[id].status) ==> Billed(admitted, id))
  }

  ghost predicate SentOk(journal: map<Id, Record>, sent: set<(Id, Tx)>) {
    forall s :: s in sent ==> s.0 in journal && Out(journal[s.0].status) && journal[s.0].tx == Some(s.1)
  }

  /** What the running operation has established. */
  ghost predicate InPhase(value: Outpoint -> nat, w: World) {
    w.phase != Idle ==>
      && w.phase.id in w.journal
      && var r := w.journal[w.phase.id];
         match w.phase
         case Idle => true
         case Reserving(_, done, frozen) =>
           && (r.status == Preparing || r.status == Prepared) && done < |r.request.inputs|
           && Total(value, r.request.inputs) == r.request.debit
         case Building(_) => r.status == Preparing && Total(value, r.request.inputs) == r.request.debit
         case Admitting(_) => r.status == Prepared
         case Sending(_) => Out(r.status)
         case Sent(_) => Out(r.status)
         case Releasing(id, done) =>
           && r.status == Cancelling && done <= |r.request.inputs|
           && (forall i :: 0 <= i < done ==> !Holds(w.freezes, id, r.request.inputs[i]))
  }

  /** Kept by every step, whatever the other holders do. */
  ghost predicate Sound(value: Outpoint -> nat, w: World) {
    && RecordsOk(value, w.journal)
    && NoStray(w.journal, w.freezes)
    && BooksOk(w.journal, w.admitted)
    && SentOk(w.journal, w.sent)
    && InPhase(value, w)
  }

  // ----- a record on file -----

  /** What a later state of the journal may do to a record. */
  ghost predicate Grows(r: Record, r': Record) {
    && r'.request == r.request
    && (r.tx.Some? ==> r'.tx == r.tx)
    && (Out(r.status) ==> Out(r'.status))
    && (r.status == Cancelling || r.status == Cancelled ==> r'.status == Cancelling || r'.status == Cancelled)
    && (r.status == Prepared ==> r'.status != Preparing)
  }

  ghost predicate JournalGrows(j: map<Id, Record>, j': map<Id, Record>) {
    forall id :: id in j ==> id in j' && Grows(j[id], j'[id])
  }

  lemma CountsKept(journal: map<Id, Record>, id: Id, r: Record)
    ensures |journal[id := r]| <= |journal| + 1
    ensures id in journal ==> |journal[id := r]| == |journal|
  {
    var longer := journal[id := r];
    if id in journal {
      assert longer.Keys == journal.Keys;
    } else {
      assert longer.Keys == journal.Keys + {id};
    }
    assert |longer| == |longer.Keys| && |journal| == |journal.Keys|;
  }

  lemma SignedOk(value: Outpoint -> nat, r: Record, tx: Tx)
    requires RecordOk(value, r) && r.status == Preparing && Verified(r.(tx := Some(tx)))
    requires Total(value, r.request.inputs) == r.request.debit
    ensures RecordOk(value, Signed(r, tx)) && Signed(r, tx).status == Prepared
  {
    assert Paid(tx.outs) == tx.outs[0].value + Paid(tx.outs[1..]);
  }

  /** Everything about the journal and the books, the running operation aside. */
  ghost predicate Files(value: Outpoint -> nat, w: World) {
    && RecordsOk(value, w.journal)
    && NoStray(w.journal, w.freezes)
    && BooksOk(w.journal, w.admitted)
    && SentOk(w.journal, w.sent)
  }

  /** A save that moves no sweep out and cancels none. */
  ghost predicate Fits(value: Outpoint -> nat, r: Record, r': Record) {
    && Grows(r, r') && RecordOk(value, r')
    && (Out(r'.status) ==> Out(r.status)) && (r'.status == Cancelled ==> r.status == Cancelled)
  }

  lemma UpdateRecords(value: Outpoint -> nat, journal: map<Id, Record>, id: Id, r: Record)
    requires RecordsOk(value, journal) && id in journal && RecordOk(value, r)
    ensures RecordsOk(value, journal[id := r])
  {
    hide RecordOk;
    CountsKept(journal, id, r);
  }

  lemma UpdateBooks(journal: map<Id, Record>, admitted: seq<(Id, int)>, id: Id, r: Record)
    requires BooksOk(journal, admitted) && id in journal
    requires Grows(journal[id], r) && (Out(r.status) ==> Out(journal[id].status))
    ensures BooksOk(journal[id := r], admitted)
  {
    hide Billed;
  }

  lemma UpdateSent(journal: map<Id, Record>, sent: set<(Id, Tx)>, id: Id, r: Record)
    requires SentOk(journal, sent) && id in journal && Grows(journal[id], r)
    ensures SentOk(journal[id := r], sent)
  {
  }

  lemma UpdateStray(journal: map<Id, Record>, freezes: map<Outpoint, Tag>, id: Id, r: Record)
    requires NoStray(journal, freezes) && id in journal
    requires Grows(journal[id], r) && (r.status == Cancelled ==> journal[id].status == Cancelled)
    ensures NoStray(journal[id := r], freezes)
  {
    forall o | o in freezes && freezes[o].Sweep? ensures Backed(journal[id := r], freezes[o].id, o) {
      assert Backed(journal, freezes[o].id, o);
    }
  }

  lemma UpdateGrows(journal: map<Id, Record>, id: Id, r: Record)
    requires id in journal ==> Grows(journal[id], r)
    ensures JournalGrows(journal, journal[id := r])
  {
  }

  lemma GrowsSelf(journal: map<Id, Record>)
    ensures JournalGrows(journal, journal)
  {
  }

  lemma UpdateKeeps(value: Outpoint -> nat, w: World, id: Id, r: Record)
    requires Files(value, w) && id in w.journal && Fits(value, w.journal[id], r)
    ensures Files(value, SetRecord(w, id, r)) && JournalGrows(w.journal, SetRecord(w, id, r).journal)
  {
    hide RecordsOk, BooksOk, SentOk, NoStray, RecordOk, Grows, JournalGrows;
    UpdateRecords(value, w.journal, id, r);
    UpdateBooks(w.journal, w.admitted, id, r);
    UpdateSent(w.journal, w.sent, id, r);
    UpdateStray(w.journal, w.freezes, id, r);
    UpdateGrows(w.journal, id, r);
  }

  lemma AddKeeps(value: Outpoint -> nat, w: World, id: Id, r: Record)
    requires Files(value, w) && id !in w.journal && |w.journal| < MAX_RECORDS
    requires RecordOk(value, r) && r.status == Preparing
    ensures Files(value, SetRecord(w, id, r)) && JournalGrows(w.journal, SetRecord(w, id, r).journal)
  {
    hide RecordOk, Holds;
    CountsKept(w.journal, id, r);
  }

  /** Moving on from one live status to another leaves the transaction verified. */
  lemma RestatusOk(value: Outpoint -> nat, r: Record, r': Record)
    requires RecordOk(value, r) && Live(r.status) && r'.status != Preparing
    requires r' == r.(status := r'.status, accepted := r'.accepted)
    ensures RecordOk(value, r')
  {
    hide Total, NormalForm;
  }

  lemma PrepareSound(value: Outpoint -> nat, w: World, id: Id, request: Request, saved: bool)
    requires Sound(value, w) && w.phase == Idle && NormalForm(request)
    ensures Sound(value, BeginPrepare(w, value, id, request, saved))
    ensures JournalGrows(w.journal, BeginPrepare(w, value, id, request, saved).journal)
  {
    hide NoStray, BooksOk, SentOk, Resolves, Total;
    if MayPrepare(w, value, id, request) {
      if id in w.journal {
        assert w.journal[id := w.journal[id]] == w.journal;
      } else if saved {
        AddKeeps(value, w, id, Draft(w, id, request));
      }
    }
  }

  lemma FreezeSound(value: Outpoint -> nat, w: World, saved: bool)
    requires Sound(value, w) && w.phase.Reserving? && !w.phase.frozen
    ensures Sound(value, FreezeOne(w, w.phase.id, w.phase.done, w.journal[w.phase.id].request.inputs[w.phase.done], saved))
  {
    hide RecordsOk, BooksOk, SentOk, Total;
  }

  lemma CheckSound(value: Outpoint -> nat, w: World)
    requires Sound(value, w) && w.phase.Reserving?
    ensures Sound(value, Recheck(w, w.phase.id, w.phase.done))
  {
    hide RecordsOk, BooksOk, SentOk, Total, NoStray, Resolves;
  }

  lemma BuiltSound(value: Outpoint -> nat, w: World, tx: Option<Tx>, saved: bool)
    requires Sound(value, w) && w.phase.Building?
    ensures Sound(value, FinishPrepare(w, w.phase.id, tx, saved))
    ensures JournalGrows(w.journal, FinishPrepare(w, w.phase.id, tx, saved).journal)
  {
    hide BooksOk, SentOk, Total, NoStray, Resolves, Verified;
    var r := w.journal[w.phase.id];
    assert RecordOk(value, r);
    if tx.Some? && Verified(r.(tx := tx)) {
      SignedOk(value, r, tx.value);
      UpdateKeeps(value, w, w.phase.id, Signed(r, tx.value));
    }
  }

  lemma RestatusKeeps(value: Outpoint -> nat, w: World, id: Id, status: Status)
    requires Files(value, w) && id in w.journal && Out(w.journal[id].status) && Out(status)
    ensures Files(value, SetRecord(w, id, w.journal[id].(status := status)))
    ensures JournalGrows(w.journal, w.journal[id := w.journal[id].(status := status)])
  {
    hide BooksOk, SentOk, NoStray, RecordOk;
    RestatusOk(value, w.journal[id], w.journal[id].(status := status));
    UpdateKeeps(value, w, id, w.journal[id].(status := status));
  }

  lemma SubmitSound(value: Outpoint -> nat, w: World, id: Id, mined: bool, saved: bool)
    requires Sound(value, w) && w.phase == Idle
    ensures Sound(value, BeginSubmit(w, id, mined, saved))
    ensures JournalGrows(w.journal, BeginSubmit(w, id, mined, saved).journal)
  {
    hide BooksOk, SentOk, Total, NoStray, Resolves, Verified, JournalGrows;
    GrowsSelf(w.journal);
    if id in w.journal && Live(w.journal[id].status) {
      if w.journal[id].status == Prepared {
        assert RecordOk(value, w.journal[id]);
      } else {
        hide RecordsOk, RecordOk;
        RestatusKeeps(value, w, id, Confirmed);
        RestatusKeeps(value, w, id, Submitted);
      }
    }
  }

  /** The debit and the new status are one save: the books still match the journal. */
  lemma AdmitSound(value: Outpoint -> nat, w: World, allowed: bool, saved: bool)
    requires Sound(value, w) && w.phase.Admitting?
    ensures Sound(value, Admit(w, w.phase.id, allowed, saved))
    ensures JournalGrows(w.journal, Admit(w, w.phase.id, allowed, saved).journal)
  {
    hide BooksOk, SentOk, NoStray, JournalGrows, RecordOk;
    var id := w.phase.id;
    var r := w.journal[id];
    var r' := r.(status := Submitted);
    RestatusOk(value, r, r');
    hide RecordsOk;
    UpdateRecords(value, w.journal, id, r');
    AdmitBooks(w.journal, w.admitted, id);
    UpdateSent(w.journal, w.sent, id, r');
    UpdateStray(w.journal, w.freezes, id, r');
    UpdateGrows(w.journal, id, r');
    GrowsSelf(w.journal);
  }

  lemma AdmitBooks(journal: map<Id, Record>, admitted: seq<(Id, int)>, id: Id)
    requires BooksOk(journal, admitted) && id in journal && !Out(journal[id].status)
    ensures BooksOk(journal[id := journal[id].(status := Submitted)], admitted + [(id, journal[id].request.debit)])
  {
    var longer := admitted + [(id, journal[id].request.debit)];
    assert longer[|admitted|].0 == id;
    forall k | k in journal && k != id && Out(journal[k].status) ensures Billed(longer, k) {
      var i :| 0 <= i < |admitted| && admitted[i].0 == k;
      assert longer[i].0 == k;
    }
  }

  lemma SendSound(value: Outpoint -> nat, w: World)
    requires Sound(value, w) && w.phase.Sending? && w.journal[w.phase.id].tx.Some?
    ensures Sound(value, Send(w, w.phase.id))
  {
    hide RecordsOk, BooksOk, NoStray;
  }

  lemma AnswerSound(value: Outpoint -> nat, w: World, accepted: bool, saved: bool)
    requires Sound(value, w) && w.phase.Sent?
    ensures Sound(value, AfterSend(w, w.phase.id, accepted, saved))
    ensures JournalGrows(w.journal, AfterSend(w, w.phase.id, accepted, saved).journal)
  {
    hide BooksOk, SentOk, Total, NoStray, Verified;
    var r := w.journal[w.phase.id];
    assert RecordOk(value, r);
    var r' := r.(accepted := r.accepted || accepted);
    RestatusOk(value, r, r');
    UpdateKeeps(value, w, w.phase.id, r');
  }

  lemma CancelSound(value: Outpoint -> nat, w: World, id: Id, saved: bool)
    requires Sound(value, w) && w.phase == Idle
    ensures Sound(value, BeginCancel(w, id, saved))
    ensures JournalGrows(w.journal, BeginCancel(w, id, saved).journal)
  {
    hide BooksOk, SentOk, Total, NoStray, Verified;
    if id in w.journal && !Out(w.journal[id].status) {
      assert RecordOk(value, w.journal[id]);
      UpdateKeeps(value, w, id, w.journal[id].(status := Cancelling));
    }
  }

  lemma ReleaseSound(value: Outpoint -> nat, w: World, saved: bool)
    requires Sound(value, w) && w.phase.Releasing? && w.phase.done < |w.journal[w.phase.id].request.inputs|
    ensures Sound(value, ReleaseOne(w, w.phase.id, w.phase.done, w.journal[w.phase.id].request.inputs[w.phase.done], saved))
  {
    hide RecordsOk, BooksOk, SentOk, Backed;
  }

  /** Every input released means no freeze of the sweep's is left. */
  lemma CloseSound(value: Outpoint -> nat, w: World, saved: bool)
    requires Sound(value, w) && w.phase.Releasing? && w.phase.done == |w.journal[w.phase.id].request.inputs|
    ensures Sound(value, FinishCancel(w, w.phase.id, saved))
    ensures JournalGrows(w.journal, FinishCancel(w, w.phase.id, saved).journal)
  {
    hide BooksOk, SentOk, NoStray, JournalGrows, RecordOk;
    var id := w.phase.id;
    var r := w.journal[id];
    var r' := r.(status := Cancelled);
    CancelledOk(value, r);
    hide RecordsOk;
    UpdateRecords(value, w.journal, id, r');
    UpdateBooks(w.journal, w.admitted, id, r');
    UpdateSent(w.journal, w.sent, id, r');
    UpdateGrows(w.journal, id, r');
    GrowsSelf(w.journal);
    CloseStray(w.journal, w.freezes, id);
  }

  lemma CloseStray(journal: map<Id, Record>, freezes: map<Outpoint, Tag>, id: Id)
    requires NoStray(journal, freezes) && id in journal
    requires forall i :: 0 <= i < |journal[id].request.inputs| ==> !Holds(freezes, id, journal[id].request.inputs[i])
    ensures NoStray(journal[id := journal[id].(status := Cancelled)], freezes)
  {
    var later := journal[id := journal[id].(status := Cancelled)];
    forall o | o in freezes && freezes[o].Sweep? ensures Backed(later, freezes[o].id, o) {
      assert Backed(journal, freezes[o].id, o);
      assert Holds(freezes, freezes[o].id, o);
    }
  }

  lemma CancelledOk(value: Outpoint -> nat, r: Record)
    requires RecordOk(value, r) && r.status == Cancelling
    ensures RecordOk(value, r.(status := Cancelled))
  {
  }

  lemma OthersSound(value: Outpoint -> nat, w: World, a: Act)
    requires Sound(value, w)
    ensures Sound(value, Perform(w, a))
  {
    hide RecordsOk, BooksOk, SentOk, Total, Backed;
  }

  lemma UserSound(value: Outpoint -> nat, w: World, o: Outpoint)
    requires Sound(value, w) && w.phase == Idle
    ensures Sound(value, UserFreeze(w, o)) && Sound(value, UserUnfreeze(w, o))
  {
    hide RecordsOk, BooksOk, SentOk, Total, Backed, Mutable;
  }

  /** Every step keeps the journal readable, the books exact and each record's history one way. */
  lemma StepSound(value: Outpoint -> nat, w: World, s: Step, w': World)
    requires Sound(value, w) && Next(value, w, s, w')
    ensures Sound(value, w') && JournalGrows(w.journal, w'.journal)
  {
    hide RecordsOk, BooksOk, SentOk, NoStray, InPhase, JournalGrows;
    hide BeginPrepare, FinishPrepare, BeginSubmit, Admit, AfterSend, BeginCancel, FinishCancel;
    GrowsSelf(w.journal);
    match s
    case Prepare(id, request, saved) =>
      PrepareSound(value, w, id, Normalize(request).value, saved);
    case Freeze(saved) => FreezeSound(value, w, saved);
    case Check => CheckSound(value, w);
    case Built(tx, saved) => BuiltSound(value, w, tx, saved);
    case Submit(id, mined, saved) => SubmitSound(value, w, id, mined, saved);
    case Charge(allowed, saved) => AdmitSound(value, w, allowed, saved);
    case Broadcast => SendSound(value, w);
    case Answered(accepted, saved) => AnswerSound(value, w, accepted, saved);
    case Cancel(id, saved) => CancelSound(value, w, id, saved);
    case Release(saved) => ReleaseSound(value, w, saved);
    case Close(saved) => CloseSound(value, w, saved);
    case Others(act) => OthersSound(value, w, act);
    case FreezeByUser(o) => UserSound(value, w, o);
    case UnfreezeByUser(o) => UserSound(value, w, o);
    case Crash => CrashSound(value, w);
  }

  lemma CrashSound(value: Outpoint -> nat, w: World)
    requires Sound(value, w)
    ensures Sound(value, Stop(w))
  {
  }

  // ----- holding the inputs -----

  ghost predicate LivesHeld(journal: map<Id, Record>, freezes: map<Outpoint, Tag>) {
    forall id :: id in journal && Live(journal[id].status) ==> HoldsAll(freezes, id, journal[id].request.inputs)
  }

  ghost predicate PhaseHeld(w: World) {
    (w.phase.Reserving? || w.phase.Building?) && w.phase.id in w.journal ==>
      var inputs := w.journal[w.phase.id].request.inputs;
      if w.phase.Building? then HoldsAll(w.freezes, w.phase.id, inputs)
      else w.phase.done < |inputs| ==>
        && HoldsAll(w.freezes, w.phase.id, inputs[..w.phase.done])
        && (w.phase.frozen ==> inputs[w.phase.done] in w.freezes)
  }

  ghost predicate Held(w: World) {
    LivesHeld(w.journal, w.freezes) && PhaseHeld(w)
  }

  /** Another holder lets go of the coin between the freeze that met it and the check that follows. */
  ghost predicate Disturbs(w: World, s: Step) {
    && s.Others? && s.act.LetGo?
    && w.phase.Reserving? && w.phase.frozen && w.phase.id in w.journal
    && w.phase.done < |w.journal[w.phase.id].request.inputs|
    && w.journal[w.phase.id].request.inputs[w.phase.done] == s.act.o
    && s.act.o in w.freezes && w.freezes[s.act.o] == Other(s.act.holder)
  }

  /** What the other freezes may become without loss to any sweep. */
  ghost predicate KeepsSweeps(freezes: map<Outpoint, Tag>, freezes': map<Outpoint, Tag>) {
    forall o :: o in freezes && freezes[o].Sweep? ==> o in freezes' && freezes'[o] == freezes[o]
  }

  lemma LivesKept(journal: map<Id, Record>, freezes: map<Outpoint, Tag>, freezes': map<Outpoint, Tag>)
    requires LivesHeld(journal, freezes) && KeepsSweeps(freezes, freezes')
    ensures LivesHeld(journal, freezes')
  {
    forall id | id in journal && Live(journal[id].status) ensures HoldsAll(freezes', id, journal[id].request.inputs) {
      HoldsKept(freezes, freezes', id, journal[id].request.inputs);
    }
  }

  lemma HoldsKept(freezes: map<Outpoint, Tag>, freezes': map<Outpoint, Tag>, id: Id, inputs: seq<Outpoint>)
    requires HoldsAll(freezes, id, inputs) && KeepsSweeps(freezes, freezes')
    ensures HoldsAll(freezes', id, inputs)
  {
    forall i | 0 <= i < |inputs| ensures Holds(freezes', id, inputs[i]) {
      assert Holds(freezes, id, inputs[i]);
    }
  }

  lemma FreezeHeld(value: Outpoint -> nat, w: World, saved: bool)
    requires Sound(value, w) && Held(w) && w.phase.Reserving? && !w.phase.frozen
    ensures Held(FreezeOne(w, w.phase.id, w.phase.done, w.journal[w.phase.id].request.inputs[w.phase.done], saved))
  {
    hide RecordsOk, BooksOk, SentOk, NoStray, Total, HoldsAll, LivesHeld;
    var id := w.phase.id;
    var inputs := w.journal[id].request.inputs;
    var w' := FreezeOne(w, id, w.phase.done, inputs[w.phase.done], saved);
    assert KeepsSweeps(w.freezes, w'.freezes);
    LivesKept(w.journal, w.freezes, w'.freezes);
    HoldsKept(w.freezes, w'.freezes, id, inputs[..w.phase.done]);
  }

  /** A check that passes on a frozen coin has found the sweep's own freeze. */
  lemma CheckHolds(w: World, id: Id, inputs: seq<Outpoint>, done: nat)
    requires done < |inputs| && Resolves(w, id, inputs) && HoldsAll(w.freezes, id, inputs[..done])
    ensures HoldsAll(w.freezes, id, inputs[..done + 1]) <==> inputs[done] in w.freezes
  {
    var more := inputs[..done + 1];
    if inputs[done] in w.freezes {
      forall i | 0 <= i < |more| ensures Holds(w.freezes, id, more[i]) {
        if i < done {
          assert Holds(w.freezes, id, inputs[..done][i]);
        }
      }
    } else {
      assert more[done] == inputs[done];
      assert !Holds(w.freezes, id, more[done]);
    }
  }

  lemma CheckHeld(value: Outpoint -> nat, w: World)
    requires Sound(value, w) && Held(w) && w.phase.Reserving? && w.phase.frozen
    ensures Held(Recheck(w, w.phase.id, w.phase.done))
  {
    hide RecordsOk, BooksOk, SentOk, NoStray, Total, HoldsAll, LivesHeld;
    var id, done := w.phase.id, w.phase.done;
    var inputs := w.journal[id].request.inputs;
    if Resolves(w, id, inputs) {
      hide Resolves;
      CheckHolds(w, id, inputs, done);
      if done + 1 == |inputs| {
        assert inputs[..done + 1] == inputs;
      }
    }
  }

  /** A record that is live after a save was held before it. */
  lemma SaveHeld(journal: map<Id, Record>, freezes: map<Outpoint, Tag>, id: Id, r: Record)
    requires LivesHeld(journal, freezes)
    requires Live(r.status) ==> HoldsAll(freezes, id, r.request.inputs)
    ensures LivesHeld(journal[id := r], freezes)
  {
    hide HoldsAll;
  }

  lemma PrepareHeld(value: Outpoint -> nat, w: World, id: Id, request: Request, saved: bool)
    requires Sound(value, w) && Held(w) && w.phase == Idle
    ensures Held(BeginPrepare(w, value, id, request, saved))
  {
    hide RecordsOk, BooksOk, SentOk, NoStray, Total, LivesHeld, Resolves;
    if MayPrepare(w, value, id, request) {
      SaveHeld(w.journal, w.freezes, id, Draft(w, id, request));
    }
  }

  lemma SubmitHeld(value: Outpoint -> nat, w: World, id: Id, mined: bool, saved: bool)
    requires Sound(value, w) && Held(w) && w.phase == Idle
    ensures Held(BeginSubmit(w, id, mined, saved))
  {
    hide RecordsOk, BooksOk, SentOk, NoStray, Total, HoldsAll, Resolves, Verified;
    if id in w.journal && Live(w.journal[id].status) {
      var r := w.journal[id];
      assert HoldsAll(w.freezes, id, r.request.inputs);
      SaveHeld(w.journal, w.freezes, id, r.(status := Confirmed));
      SaveHeld(w.journal, w.freezes, id, r.(status := Submitted));
      assert HoldsAll(w.freezes, id, r.request.inputs[..0]) by { HoldsNothing(w.freezes, id, r.request.inputs[..0]); }
    }
  }

  lemma HoldsNothing(freezes: map<Outpoint, Tag>, id: Id, none: seq<Outpoint>)
    requires none == []
    ensures HoldsAll(freezes, id, none)
  {
  }

  lemma SavesHeld(value: Outpoint -> nat, w: World, s: Step, w': World)
    requires Sound(value, w) && Held(w) && Next(value, w, s, w')
    requires s.Built? || s.Charge? || s.Answered? || s.Cancel? || s.Close? || s.Broadcast? || s.Crash?
    ensures Held(w')
  {
    hide RecordsOk, BooksOk, SentOk, NoStray, Total, HoldsAll, Resolves, Verified;
    match s
    case Built(tx, saved) =>
      if tx.Some? {
        SaveHeld(w.journal, w.freezes, w.phase.id, Signed(w.journal[w.phase.id], tx.value));
      }
    case Charge(allowed, saved) =>
      SaveHeld(w.journal, w.freezes, w.phase.id, w.journal[w.phase.id].(status := Submitted));
    case Answered(accepted, saved) =>
      var r := w.journal[w.phase.id];
      SaveHeld(w.journal, w.freezes, w.phase.id, r.(accepted := r.accepted || accepted));
    case Cancel(id, saved) =>
      if id in w.journal {
        SaveHeld(w.journal, w.freezes, id, w.journal[id].(status := Cancelling));
      }
    case Close(saved) =>
      SaveHeld(w.journal, w.freezes, w.phase.id, w.journal[w.phase.id].(status := Cancelled));
    case _ =>
  }

  /** Releasing a cancelling sweep's coin takes nothing from a live one. */
  lemma ReleaseHeld(value: Outpoint -> nat, w: World, saved: bool)
    requires Sound(value, w) && Held(w) && w.phase.Releasing? && w.phase.done < |w.journal[w.phase.id].request.inputs|
    ensures Held(ReleaseOne(w, w.phase.id, w.phase.done, w.journal[w.phase.id].request.inputs[w.phase.done], saved))
  {
    hide RecordsOk, BooksOk, SentOk, NoStray;
    var id := w.phase.id;
    var w' := ReleaseOne(w, id, w.phase.done, w.journal[id].request.inputs[w.phase.done], saved);
    forall k | k in w.journal && Live(w.journal[k].status) ensures HoldsAll(w'.freezes, k, w.journal[k].request.inputs) {
      var inputs := w.journal[k].request.inputs;
      assert HoldsAll(w.freezes, k, inputs);
      forall i | 0 <= i < |inputs| ensures Holds(w'.freezes, k, inputs[i]) {
        assert Holds(w.freezes, k, inputs[i]);
      }
    }
  }

  lemma OthersHeld(value: Outpoint -> nat, w: World, a: Act)
    requires Sound(value, w) && Held(w) && !Disturbs(w, Others(a))
    ensures Held(Perform(w, a))
  {
    hide RecordsOk, BooksOk, SentOk, NoStray, Total, HoldsAll, LivesHeld;
    var w' := Perform(w, a);
    assert KeepsSweeps(w.freezes, w'.freezes);
    LivesKept(w.journal, w.freezes, w'.freezes);
    if w.phase.Reserving? {
      HoldsKept(w.freezes, w'.freezes, w.phase.id, w.journal[w.phase.id].request.inputs[..w.phase.done]);
    } else if w.phase.Building? {
      HoldsKept(w.freezes, w'.freezes, w.phase.id, w.journal[w.phase.id].request.inputs);
    }
  }

  /** The user cannot touch a coin a sweep on file still lists. */
  lemma UserHeld(value: Outpoint -> nat, w: World, o: Outpoint)
    requires Sound(value, w) && Held(w) && w.phase == Idle
    ensures Held(UserFreeze(w, o)) && Held(UserUnfreeze(w, o))
  {
    hide RecordsOk, BooksOk, SentOk, HoldsAll, LivesHeld;
    if Mutable(w, o) {
      assert KeepsSweeps(w.freezes, w.freezes[o := User]) && KeepsSweeps(w.freezes, w.freezes - {o}) by {
        assert o in w.freezes && w.freezes[o].Sweep? ==> Backed(w.journal, w.freezes[o].id, o);
      }
      LivesKept(w.journal, w.freezes, w.freezes[o := User]);
      LivesKept(w.journal, w.freezes, w.freezes - {o});
    }
  }

  lemma StepHeld(value: Outpoint -> nat, w: World, s: Step, w': World)
    requires Sound(value, w) && Held(w) && Next(value, w, s, w') && !Disturbs(w, s)
    ensures Held(w')
  {
    hide RecordsOk, BooksOk, SentOk, NoStray, InPhase, Held, Disturbs;
    hide BeginPrepare, FreezeOne, Recheck, BeginSubmit, ReleaseOne, Perform, UserFreeze, UserUnfreeze;
    match s
    case Prepare(id, request, saved) => PrepareHeld(value, w, id, Normalize(request).value, saved);
    case Freeze(saved) => FreezeHeld(value, w, saved);
    case Check => CheckHeld(value, w);
    case Submit(id, mined, saved) => SubmitHeld(value, w, id, mined, saved);
    case Release(saved) => ReleaseHeld(value, w, saved);
    case Others(act) => OthersHeld(value, w, act);
    case FreezeByUser(o) => UserHeld(value, w, o);
    case UnfreezeByUser(o) => UserHeld(value, w, o);
    case _ => SavesHeld(value, w, s, w');
  }

  // ----- whole runs -----

  ghost predicate Initial(w: World) {
    && w.journal == map[] && w.admitted == [] && w.sent == {} && w.phase == Idle
    && (forall o :: o in w.freezes ==> !w.freezes[o].Sweep?)
  }

  ghost predicate Run(value: Outpoint -> nat, ws: seq<World>, steps: seq<Step>) {
    && |ws| == |steps| + 1 && Initial(ws[0])
    && (forall i :: 0 <= i < |steps| ==> Next(value, ws[i], steps[i], ws[i + 1]))
  }

  ghost predicate Undisturbed(ws: seq<World>, steps: seq<Step>)
    requires |ws| == |steps| + 1
  {
    forall i :: 0 <= i < |steps| ==> !Disturbs(ws[i], steps[i])
  }

  lemma {:induction false} RunSound(value: Outpoint -> nat, ws: seq<World>, steps: seq<Step>, i: nat)
    requires Run(value, ws, steps) && i < |ws|
    ensures Sound(value, ws[i])
  {
    hide Next;
    if i > 0 {
      hide Sound;
      RunSound(value, ws, steps, i - 1);
      assert Next(value, ws[i - 1], steps[i - 1], ws[i]);
      StepSound(value, ws[i - 1], steps[i - 1], ws[i]);
    }
  }

  lemma {:induction false} RunHeld(value: Outpoint -> nat, ws: seq<World>, steps: seq<Step>, i: nat)
    requires Run(value, ws, steps) && Undisturbed(ws, steps) && i < |ws|
    ensures Held(ws[i])
  {
    hide Next, Disturbs, Sound;
    if i > 0 {
      hide Held;
      RunHeld(value, ws, steps, i - 1);
      RunSound(value, ws, steps, i - 1);
      assert Next(value, ws[i - 1], steps[i - 1], ws[i]);
      StepHeld(value, ws[i - 1], steps[i - 1], ws[i]);
    }
  }

  // ----- which inputs a sweep holds -----

  /** A freeze call of the sweep's that finds the coin free and takes it. */
  ghost predicate Acquires(w: World, s: Step, id: Id, o: Outpoint) {
    && s == Freeze(true) && w.phase.Reserving? && w.phase.id == id && id in w.journal
    && w.phase.done < |w.journal[id].request.inputs| && w.journal[id].request.inputs[w.phase.done] == o
    && o in w.utxos && o !in w.freezes
  }

  ghost predicate AcquiredIn(ws: seq<World>, steps: seq<Step>, i: nat, id: Id, o: Outpoint)
    requires i < |ws| == |steps| + 1
  {
    exists j :: 0 <= j < i && Acquires(ws[j], steps[j], id, o)
  }

  predicate Closing(s: Status) { s == Cancelling || s == Cancelled }

  /** No step gives a sweep a coin but its own freeze call, and none but its own release takes one away. */
  lemma HoldsStep(value: Outpoint -> nat, w: World, s: Step, w': World, id: Id, o: Outpoint)
    requires Sound(value, w) && Next(value, w, s, w') && id in w'.journal && !Closing(w'.journal[id].status)
    ensures Holds(w'.freezes, id, o) <==> Holds(w.freezes, id, o) || Acquires(w, s, id, o)
  {
    hide Next, RecordsOk, BooksOk, SentOk, InPhase;
    StepSound(value, w, s, w');
    assert Holds(w.freezes, id, o) ==> Backed(w.journal, id, o);
    assert id in w.journal ==> !Closing(w.journal[id].status);
    match s
    case Release(_) => ReleaseHolds(value, w, s, w', id, o);
    case FreezeByUser(x) => UserHolds(value, w, s, w', id, o);
    case UnfreezeByUser(x) => UserHolds(value, w, s, w', id, o);
    case Freeze(_) => FreezeHolds(value, w, s, w', id, o);
    case Others(act) => OthersHolds(value, w, s, w', id, o);
    case _ => SameFreezes(value, w, s, w');
  }

  lemma SameFreezes(value: Outpoint -> nat, w: World, s: Step, w': World)
    requires Next(value, w, s, w')
    requires !s.Release? && !s.FreezeByUser? && !s.UnfreezeByUser? && !s.Freeze? && !s.Others?
    ensures w'.freezes == w.freezes
  {
    hide Resolves, Total, Verified, Normalize;
  }

  lemma FreezeHolds(value: Outpoint -> nat, w: World, s: Step, w': World, id: Id, o: Outpoint)
    requires Next(value, w, s, w') && s.Freeze?
    ensures Holds(w'.freezes, id, o) <==> Holds(w.freezes, id, o) || Acquires(w, s, id, o)
  {
  }

  lemma UserHolds(value: Outpoint -> nat, w: World, s: Step, w': World, id: Id, o: Outpoint)
    requires Next(value, w, s, w') && (s.FreezeByUser? || s.UnfreezeByUser?)
    requires Holds(w.freezes, id, o) ==> Backed(w.journal, id, o)
    ensures Holds(w'.freezes, id, o) <==> Holds(w.freezes, id, o)
  {
  }

  lemma OthersHolds(value: Outpoint -> nat, w: World, s: Step, w': World, id: Id, o: Outpoint)
    requires Next(value, w, s, w') && s.Others?
    ensures Holds(w'.freezes, id, o) <==> Holds(w.freezes, id, o)
  {
  }

  lemma ReleaseHolds(value: Outpoint -> nat, w: World, s: Step, w': World, id: Id, o: Outpoint)
    requires Sound(value, w) && Next(value, w, s, w') && s.Release? && (id in w.journal ==> !Closing(w.journal[id].status))
    ensures Holds(w'.freezes, id, o) <==> Holds(w.freezes, id, o)
  {
    hide RecordsOk, BooksOk, SentOk, Total, NoStray;
    assert w.journal[w.phase.id].status == Cancelling;
  }

  /** At any point of any run, a sweep holds exactly the coins that a freeze call of its own found free. */
  lemma {:induction false} HoldsExactly(
    value: Outpoint -> nat, ws: seq<World>, steps: seq<Step>, i: nat, id: Id, o: Outpoint)
    requires Run(value, ws, steps) && i < |ws| && id in ws[i].journal && !Closing(ws[i].journal[id].status)
    ensures Holds(ws[i].freezes, id, o) <==> AcquiredIn(ws, steps, i, id, o)
  {
    hide Next, Sound, Acquires;
    if i > 0 {
      assert Next(value, ws[i - 1], steps[i - 1], ws[i]);
      RunSound(value, ws, steps, i - 1);
      HoldsStep(value, ws[i - 1], steps[i - 1], ws[i], id, o);
      if id in ws[i - 1].journal {
        StepSound(value, ws[i - 1], steps[i - 1], ws[i]);
        HoldsExactly(value, ws, steps, i - 1, id, o);
      } else {
        AbsentHolds(value, ws, steps, i - 1, id, o);
      }
    }
  }

  /** A sweep not yet on file holds and has acquired nothing. */
  lemma {:induction false} AbsentHolds(
    value: Outpoint -> nat, ws: seq<World>, steps: seq<Step>, i: nat, id: Id, o: Outpoint)
    requires Run(value, ws, steps) && i < |ws| && id !in ws[i].journal
    ensures !Holds(ws[i].freezes, id, o) && !AcquiredIn(ws, steps, i, id, o)
  {
    RunSound(value, ws, steps, i);
    assert Holds(ws[i].freezes, id, o) ==> Backed(ws[i].journal, id, o);
    if j :| 0 <= j < i && Acquires(ws[j], steps[j], id, o) {
      hide Next;
      HistoryOneWay(value, ws, steps, j, i, id);
    }
  }

  /** Two sweeps at prepared or later share no input that a freeze call of each found free. */
  lemma SweepsDisjoint(value: Outpoint -> nat, ws: seq<World>, steps: seq<Step>, i: nat, a: Id, b: Id, o: Outpoint)
    requires Run(value, ws, steps) && i < |ws|
    requires a in ws[i].journal && Live(ws[i].journal[a].status) && AcquiredIn(ws, steps, i, a, o)
    requires b in ws[i].journal && Live(ws[i].journal[b].status) && AcquiredIn(ws, steps, i, b, o)
    ensures a == b
  {
    hide Next, Acquires;
    HoldsExactly(value, ws, steps, i, a, o);
    HoldsExactly(value, ws, steps, i, b, o);
  }

  /** In an undisturbed run every sweep at prepared or later has acquired every input. */
  lemma UndisturbedAcquires(value: Outpoint -> nat, ws: seq<World>, steps: seq<Step>, i: nat, id: Id, o: Outpoint)
    requires Run(value, ws, steps) && Undisturbed(ws, steps) && i < |ws|
    requires id in ws[i].journal && Live(ws[i].journal[id].status) && o in ws[i].journal[id].request.inputs
    ensures AcquiredIn(ws, steps, i, id, o)
  {
    hide Next, Disturbs, Sound, Acquires;
    RunHeld(value, ws, steps, i);
    HoldsInput(ws[i].freezes, id, ws[i].journal[id].request.inputs, o);
    HoldsExactly(value, ws, steps, i, id, o);
  }

  lemma HoldsInput(freezes: map<Outpoint, Tag>, id: Id, inputs: seq<Outpoint>, o: Outpoint)
    requires HoldsAll(freezes, id, inputs) && o in inputs
    ensures Holds(freezes, id, o)
  {
    var i :| 0 <= i < |inputs| && inputs[i] == o;
    assert Holds(freezes, id, inputs[i]);
  }

  /** No two sweeps broadcast transactions that spend the same coin, both having acquired it. */
  lemma BroadcastsDisjoint(
    value: Outpoint -> nat, ws: seq<World>, steps: seq<Step>, i: nat, a: (Id, Tx), b: (Id, Tx), o: Outpoint)
    requires Run(value, ws, steps) && i < |ws|
    requires a in ws[i].sent && AcquiredIn(ws, steps, i, a.0, o) && b in ws[i].sent && AcquiredIn(ws, steps, i, b.0, o)
    ensures a == b
  {
    hide Next, Acquires;
    RunSound(value, ws, steps, i);
    SweepsDisjoint(value, ws, steps, i, a.0, b.0, o);
  }

  /** In an undisturbed run no two sweeps broadcast transactions that spend the same coin. */
  lemma UndisturbedBroadcasts(
    value: Outpoint -> nat, ws: seq<World>, steps: seq<Step>, i: nat, a: (Id, Tx), b: (Id, Tx), o: Outpoint)
    requires Run(value, ws, steps) && Undisturbed(ws, steps) && i < |ws|
    requires a in ws[i].sent && o in a.1.ins && b in ws[i].sent && o in b.1.ins
    ensures a == b
  {
    hide Next, Disturbs, AcquiredIn;
    RunSound(value, ws, steps, i);
    var j := ws[i].journal;
    SpendsInputs(value, j[a.0], o);
    SpendsInputs(value, j[b.0], o);
    UndisturbedAcquires(value, ws, steps, i, a.0, o);
    UndisturbedAcquires(value, ws, steps, i, b.0, o);
    BroadcastsDisjoint(value, ws, steps, i, a, b, o);
  }

  lemma SpendsInputs(value: Outpoint -> nat, r: Record, o: Outpoint)
    requires RecordOk(value, r) && Live(r.status)
    ensures o in r.tx.value.ins <==> o in r.request.inputs
  {
    assert o in r.tx.value.ins <==> o in multiset(r.tx.value.ins);
    assert o in r.request.inputs <==> o in multiset(r.request.inputs);
  }

  /** From one point of a run to any later one, a sweep keeps its request and bytes, and one that is out stays out. */
  lemma {:induction false} HistoryOneWay(
    value: Outpoint -> nat, ws: seq<World>, steps: seq<Step>, i: nat, j: nat, id: Id)
    requires Run(value, ws, steps) && i <= j < |ws| && id in ws[i].journal
    ensures id in ws[j].journal && Grows(ws[i].journal[id], ws[j].journal[id])
    decreases j
  {
    if i < j {
      hide Sound, Next, Grows;
      HistoryOneWay(value, ws, steps, i, j - 1, id);
      RunSound(value, ws, steps, j - 1);
      assert Next(value, ws[j - 1], steps[j - 1], ws[j]);
      StepSound(value, ws[j - 1], steps[j - 1], ws[j]);
      GrowsOn(ws[i].journal[id], ws[j - 1].journal[id], ws[j].journal[id]);
    } else {
      hide Next;
    }
  }

  lemma GrowsOn(a: Record, b: Record, c: Record)
    requires Grows(a, b) && Grows(b, c)
    ensures Grows(a, c)
  {
  }

  /** The sum of the debits recorded for one sweep. */
  function Debits(admitted: seq<(Id, int)>, id: Id): int {
    if admitted == [] then 0 else (if admitted[0].0 == id then admitted[0].1 else 0) + Debits(admitted[1..], id)
  }

  lemma {:induction false} DebitsOnce(admitted: seq<(Id, int)>, id: Id, amount: int)
    requires forall i, j :: 0 <= i < j < |admitted| ==> admitted[i].0 != admitted[j].0
    requires forall i :: 0 <= i < |admitted| && admitted[i].0 == id ==> admitted[i].1 == amount
    ensures Debits(admitted, id) == if Billed(admitted, id) then amount else 0
  {
    if admitted != [] {
      var rest := admitted[1..];
      DebitsOnce(rest, id, amount);
      if Billed(rest, id) {
        var i :| 0 <= i < |rest| && rest[i].0 == id;
        assert admitted[i + 1].0 == id;
      }
      if Billed(admitted, id) && admitted[0].0 != id {
        var i :| 0 <= i < |admitted| && admitted[i].0 == id;
        assert rest[i - 1].0 == id;
      }
    }
  }

  /** Over all retries and crashes, a sweep has been charged its reviewed debit once if it is out, and nothing if not. */
  lemma ChargedOnce(value: Outpoint -> nat, ws: seq<World>, steps: seq<Step>, i: nat, id: Id)
    requires Run(value, ws, steps) && i < |ws| && id in ws[i].journal
    ensures Debits(ws[i].admitted, id) ==
      if Out(ws[i].journal[id].status) then ws[i].journal[id].request.debit else 0
  {
    hide Next;
    RunSound(value, ws, steps, i);
    var w := ws[i];
    forall k | 0 <= k < |w.admitted| && w.admitted[k].0 == id ensures w.admitted[k].1 == w.journal[id].request.debit {
      assert BilledOk(w.journal, w.admitted[k]);
    }
    DebitsOnce(w.admitted, id, w.journal[id].request.debit);
    if Billed(w.admitted, id) {
      var k :| 0 <= k < |w.admitted| && w.admitted[k].0 == id;
      assert BilledOk(w.journal, w.admitted[k]);
    }
  }

  lemma {:induction false} TotalRemove(value: Outpoint -> nat, s: seq<Outpoint>, i: nat)
    requires i < |s|
    ensures Total(value, s) == value(s[i]) + Total(value, s[..i] + s[i + 1..])
  {
    if i == 0 {
      assert s[..0] + s[1..] == s[1..];
    } else {
      TotalRemove(value, s[1..], i - 1);
      var rest := s[..i] + s[i + 1..];
      assert rest[1..] == s[1..][..i - 1] + s[1..][i..];
      assert rest[0] == s[0];
    }
  }

  lemma {:induction false} TotalPermuted(value: Outpoint -> nat, s: seq<Outpoint>, t: seq<Outpoint>)
    requires multiset(s) == multiset(t)
    ensures Total(value, s) == Total(value, t)
  {
    SameLength(s, t);
    if s != [] {
      var i := PairHead(s, t);
      TotalPermuted(value, s[1..], t[..i] + t[i + 1..]);
      TotalRemove(value, t, i);
    }
  }

  /** Every broadcast spends the reviewed coins to the reviewed address, and burns no more than the reviewed fee. */
  lemma BroadcastAsReviewed(value: Outpoint -> nat, ws: seq<World>, steps: seq<Step>, i: nat, sent: (Id, Tx))
    requires Run(value, ws, steps) && i < |ws| && sent in ws[i].sent
    ensures sent.0 in ws[i].journal
    ensures var request := ws[i].journal[sent.0].request; var tx := sent.1;
      && multiset(tx.ins) == multiset(request.inputs)
      && |tx.outs| == 1 && tx.outs[0].script == request.address && tx.outs[0].value > 0
      && Total(value, tx.ins) == request.debit
      && 0 <= Total(value, tx.ins) - tx.outs[0].value <= request.maxFee
      && Debits(ws[i].admitted, sent.0) == Total(value, tx.ins)
  {
    hide Next;
    RunSound(value, ws, steps, i);
    var r := ws[i].journal[sent.0];
    assert RecordOk(value, r);
    TotalPermuted(value, sent.1.ins, r.request.inputs);
    assert Paid(sent.1.outs) == sent.1.outs[0].value + Paid(sent.1.outs[1..]);
    ChargedOnce(value, ws, steps, i, sent.0);
  }

  /** The journal a run leaves behind is always one its reader accepts. */
  lemma JournalReadable(value: Outpoint -> nat, ws: seq<World>, steps: seq<Step>, i: nat, id: Id)
    requires Run(value, ws, steps) && i < |ws| && id in ws[i].journal
    ensures |ws[i].journal| <= MAX_RECORDS
    ensures Normalize(ws[i].journal[id].request) == Some(ws[i].journal[id].request)
    ensures Live(ws[i].journal[id].status) ==> Verified(ws[i].journal[id])
  {
    hide Next;
    RunSound(value, ws, steps, i);
    assert RecordOk(value, ws[i].journal[id]);
    NormalFixed(ws[i].journal[id].request);
  }

  /** A cancelled sweep leaves no coin frozen behind it. */
  lemma CancelledHoldsNone(value: Outpoint -> nat, ws: seq<World>, steps: seq<Step>, i: nat, id: Id, o: Outpoint)
    requires Run(value, ws, steps) && i < |ws| && id in ws[i].journal && ws[i].journal[id].status == Cancelled
    ensures !Holds(ws[i].freezes, id, o)
  {
    hide Next;
    RunSound(value, ws, steps, i);
    assert Holds(ws[i].freezes, id, o) ==> Backed(ws[i].journal, id, o);
  }

  // ----- one reservation -----

  /** A stretch of a run in which the sweep's reservation goes through, from its first freeze to its last check. */
  ghost predicate Walk(value: Outpoint -> nat, ws: seq<World>, steps: seq<Step>, id: Id, a: nat, b: nat) {
    && Run(value, ws, steps) && a < b < |ws| == |steps| + 1
    && ws[a].phase == Reserving(id, 0, false) && (ws[b].phase == Building(id) || ws[b].phase == Admitting(id))
    && (forall j :: a <= j < b ==> ws[j].phase.Reserving? && ws[j].phase.id == id)
  }

  /** What one step within a reservation does. */
  lemma WalkStep(value: Outpoint -> nat, w: World, s: Step, w': World, id: Id)
    requires Sound(value, w) && Next(value, w, s, w') && w.phase.Reserving? && w.phase.id == id
    requires (w'.phase.Reserving? || w'.phase.Building? || w'.phase.Admitting?) && w'.phase.id == id
    ensures w'.journal == w.journal && w.phase.done < |w.journal[id].request.inputs|
    ensures s.Freeze? || s.Check? || s.Others?
    ensures s.Freeze? ==>
      && w'.phase == Reserving(id, w.phase.done, true) && !w.phase.frozen
      && w.journal[id].request.inputs[w.phase.done] in w'.freezes
    ensures s.Check? ==>
      && w.phase.frozen && w'.freezes == w.freezes && Resolves(w, id, w.journal[id].request.inputs)
      && (w.phase.done + 1 < |w.journal[id].request.inputs| ==> w'.phase == Reserving(id, w.phase.done + 1, false))
      && (w.phase.done + 1 == |w.journal[id].request.inputs| ==> !w'.phase.Reserving?)
    ensures s.Others? ==> w'.phase == w.phase
    ensures forall o :: o != w.journal[id].request.inputs[w.phase.done] ==>
      (Holds(w'.freezes, id, o) <==> Holds(w.freezes, id, o))
  {
    hide RecordsOk, BooksOk, SentOk, NoStray, Total;
  }

  lemma WalkSame(value: Outpoint -> nat, ws: seq<World>, steps: seq<Step>, id: Id, a: nat, b: nat, j: nat)
    requires Walk(value, ws, steps, id, a, b) && a <= j < b
    ensures Sound(value, ws[j]) && Next(value, ws[j], steps[j], ws[j + 1])
    ensures ws[j].phase.Reserving? && ws[j].phase.id == id && id in ws[j].journal
    ensures (ws[j + 1].phase.Reserving? || ws[j + 1].phase.Building? || ws[j + 1].phase.Admitting?) && ws[j + 1].phase.id == id
  {
    RunSound(value, ws, steps, j);
  }

  lemma {:induction false} WalkJournal(value: Outpoint -> nat, ws: seq<World>, steps: seq<Step>, id: Id, a: nat, b: nat, j: nat)
    requires Walk(value, ws, steps, id, a, b) && a <= j <= b
    ensures ws[j].journal == ws[a].journal && id in ws[a].journal
  {
    hide Next, Sound, Run;
    WalkSame(value, ws, steps, id, a, b, a);
    if j > a {
      WalkJournal(value, ws, steps, id, a, b, j - 1);
      WalkSame(value, ws, steps, id, a, b, j - 1);
      WalkStep(value, ws[j - 1], steps[j - 1], ws[j], id);
    }
  }

  /** The check of one input, as the walk came to it. */
  ghost predicate ChecksAt(ws: seq<World>, steps: seq<Step>, id: Id, c: nat, k: nat) {
    c < |steps| && c < |ws| && steps[c] == Check && ws[c].phase == Reserving(id, k, true)
  }

  /** Every input is checked in the walk. */
  lemma {:induction false} EachChecked(
    value: Outpoint -> nat, ws: seq<World>, steps: seq<Step>, id: Id, a: nat, b: nat, j: nat, k: nat) returns (c: nat)
    requires Walk(value, ws, steps, id, a, b) && a <= j <= b && id in ws[a].journal
    requires k < (if ws[j].phase.Reserving? then ws[j].phase.done else |ws[a].journal[id].request.inputs|)
    ensures a <= c < j && ChecksAt(ws, steps, id, c, k)
    decreases j
  {
    hide Next, Sound, Run;
    assert j > a;
    WalkSame(value, ws, steps, id, a, b, j - 1);
    WalkJournal(value, ws, steps, id, a, b, j - 1);
    WalkStep(value, ws[j - 1], steps[j - 1], ws[j], id);
    if k < ws[j - 1].phase.done {
      c := EachChecked(value, ws, steps, id, a, b, j - 1, k);
    } else {
      c := j - 1;
    }
  }

  lemma DistinctAt(s: seq<Outpoint>, i: nat, j: nat)
    requires Distinct(s) && i < |s| && j < |s| && i != j
    ensures s[i] != s[j]
  {
  }

  /** From its check to the end of the walk, an input stays held, or stays not held. */
  lemma {:induction false} HeldSinceCheck(
    value: Outpoint -> nat, ws: seq<World>, steps: seq<Step>, id: Id, a: nat, b: nat, c: nat, k: nat, j: nat)
    requires Walk(value, ws, steps, id, a, b) && a <= c < j <= b && ChecksAt(ws, steps, id, c, k)
    requires id in ws[a].journal && k < |ws[a].journal[id].request.inputs|
    ensures var o := ws[a].journal[id].request.inputs[k];
      && (Holds(ws[j].freezes, id, o) <==> o in ws[c].freezes)
      && (ws[j].phase.Reserving? ==> ws[j].phase.done > k)
    decreases j
  {
    hide Next, Run;
    var inputs := ws[a].journal[id].request.inputs;
    WalkSame(value, ws, steps, id, a, b, j - 1);
    WalkJournal(value, ws, steps, id, a, b, j - 1);
    assert RecordOk(value, ws[j - 1].journal[id]);
    hide Sound;
    WalkStep(value, ws[j - 1], steps[j - 1], ws[j], id);
    if j - 1 == c {
      assert Resolves(ws[c], id, inputs);
    } else {
      HeldSinceCheck(value, ws, steps, id, a, b, c, k, j - 1);
      DistinctAt(inputs, k, ws[j - 1].phase.done);
    }
  }

  ghost predicate AllChecksFrozen(ws: seq<World>, steps: seq<Step>, id: Id, a: nat, b: nat, inputs: seq<Outpoint>)
    requires b < |ws|
  {
    forall c: nat, k: nat :: a <= c < b && k < |inputs| && ChecksAt(ws, steps, id, c, k) ==> inputs[k] in ws[c].freezes
  }

  /**
   * A reservation that goes through leaves the sweep holding every input if and
   * only if each of its checks found the coin it was about still frozen.
   */
  lemma WalkHolds(value: Outpoint -> nat, ws: seq<World>, steps: seq<Step>, id: Id, a: nat, b: nat)
    requires Walk(value, ws, steps, id, a, b)
    ensures id in ws[a].journal && ws[b].journal == ws[a].journal
    ensures HoldsAll(ws[b].freezes, id, ws[a].journal[id].request.inputs) <==>
      AllChecksFrozen(ws, steps, id, a, b, ws[a].journal[id].request.inputs)
  {
    hide Next, Sound, Run, ChecksAt;
    WalkJournal(value, ws, steps, id, a, b, b);
    var inputs := ws[a].journal[id].request.inputs;
    if HoldsAll(ws[b].freezes, id, inputs) {
      forall c: nat, k: nat | a <= c < b && k < |inputs| && ChecksAt(ws, steps, id, c, k) ensures inputs[k] in ws[c].freezes {
        HeldSinceCheck(value, ws, steps, id, a, b, c, k, b);
        assert Holds(ws[b].freezes, id, inputs[k]);
      }
    }
    if AllChecksFrozen(ws, steps, id, a, b, inputs) {
      forall k | 0 <= k < |inputs| ensures Holds(ws[b].freezes, id, inputs[k]) {
        var c := EachChecked(value, ws, steps, id, a, b, b, k);
        HeldSinceCheck(value, ws, steps, id, a, b, c, k, b);
      }
    }
  }

  /** A sweep whose checks all found their coins frozen has acquired every input. */
  lemma CheckedAcquires(
    value: Outpoint -> nat, ws: seq<World>, steps: seq<Step>, id: Id, a: nat, b: nat, i: nat, o: Outpoint)
    requires Walk(value, ws, steps, id, a, b) && b <= i < |ws| && id in ws[a].journal
    requires AllChecksFrozen(ws, steps, id, a, b, ws[a].journal[id].request.inputs)
    requires o in ws[a].journal[id].request.inputs
    ensures AcquiredIn(ws, steps, i, id, o)
  {
    hide Next, Run, Acquires, AllChecksFrozen;
    WalkHolds(value, ws, steps, id, a, b);
    HoldsInput(ws[b].freezes, id, ws[a].journal[id].request.inputs, o);
    RunSound(value, ws, steps, b);
    HoldsExactly(value, ws, steps, b, id, o);
    var j :| 0 <= j < b && Acquires(ws[j], steps[j], id, o);
    assert 0 <= j < i && Acquires(ws[j], steps[j], id, o);
  }

  /** Two sweeps at prepared or later, whose checks all found their coins frozen, share no input. */
  lemma CheckedSweepsDisjoint(
    value: Outpoint -> nat, ws: seq<World>, steps: seq<Step>, i: nat, x: Id, a: nat, b: nat, y: Id, c: nat, d: nat, o: Outpoint)
    requires Walk(value, ws, steps, x, a, b) && Walk(value, ws, steps, y, c, d) && b <= i < |ws| && d <= i
    requires x in ws[a].journal && AllChecksFrozen(ws, steps, x, a, b, ws[a].journal[x].request.inputs)
    requires y in ws[c].journal && AllChecksFrozen(ws, steps, y, c, d, ws[c].journal[y].request.inputs)
    requires x in ws[i].journal && Live(ws[i].journal[x].status) && o in ws[i].journal[x].request.inputs
    requires y in ws[i].journal && Live(ws[i].journal[y].status) && o in ws[i].journal[y].request.inputs
    ensures x == y
  {
    hide Next, Run, AcquiredIn, AllChecksFrozen;
    HistoryOneWay(value, ws, steps, a, i, x);
    HistoryOneWay(value, ws, steps, c, i, y);
    CheckedAcquires(value, ws, steps, x, a, b, i, o);
    CheckedAcquires(value, ws, steps, y, c, d, i, o);
    SweepsDisjoint(value, ws, steps, i, x, y, o);
  }

  /** A check finds its coin free only because another holder let it go since the freeze call that met it. */
  lemma {:induction false} WindowOpens(
    value: Outpoint -> nat, ws: seq<World>, steps: seq<Step>, id: Id, a: nat, b: nat, c: nat, k: nat) returns (j: nat)
    requires Walk(value, ws, steps, id, a, b) && a <= c < b && ws[c].phase == Reserving(id, k, true)
    requires id in ws[a].journal && k < |ws[a].journal[id].request.inputs|
    requires ws[a].journal[id].request.inputs[k] !in ws[c].freezes
    ensures a <= j < c && Disturbs(ws[j], steps[j]) && ws[j].phase == Reserving(id, k, true)
    decreases c
  {
    hide Run, Next, Disturbs, Sound;
    var o := ws[a].journal[id].request.inputs[k];
    assert c > a;
    WalkSame(value, ws, steps, id, a, b, c - 1);
    WalkJournal(value, ws, steps, id, a, b, c - 1);
    WalkStep(value, ws[c - 1], steps[c - 1], ws[c], id);
    if o in ws[c - 1].freezes {
      LetGoDisturbs(value, ws[c - 1], steps[c - 1], ws[c], id, o);
      j := c - 1;
    } else {
      j := WindowOpens(value, ws, steps, id, a, b, c - 1, k);
    }
  }

  lemma LetGoDisturbs(value: Outpoint -> nat, w: World, s: Step, w': World, id: Id, o: Outpoint)
    requires Next(value, w, s, w') && s.Others? && w.phase.Reserving? && w.phase.frozen && w.phase.id == id && id in w.journal
    requires w.phase.done < |w.journal[id].request.inputs| && w.journal[id].request.inputs[w.phase.done] == o
    requires o in w.freezes && o !in w'.freezes
    ensures Disturbs(w, s)
  {
  }

  // ----- a live sweep without one of its inputs -----

  const COIN: Outpoint := Outpoint(1, 0)
  const DRAIN: Request := Request(Address(7), 1.0, [COIN], 1000, 200)
  const DRAINED: Tx := Tx([COIN], [Output(Address(7), 900)])

  function Flat(o: Outpoint): nat { 1000 }

  ghost predicate Path(value: Outpoint -> nat, ws: seq<World>, steps: seq<Step>, from: World, to: World) {
    && |ws| == |steps| + 1 && ws[0] == from && ws[|steps|] == to
    && (forall i :: 0 <= i < |steps| ==> Next(value, ws[i], steps[i], ws[i + 1]))
  }

  ghost predicate Leads(value: Outpoint -> nat, from: World, to: World) {
    exists ws, steps :: Path(value, ws, steps, from, to)
  }

  lemma OneStep(value: Outpoint -> nat, w: World, s: Step, w': World)
    requires Next(value, w, s, w')
    ensures Leads(value, w, w')
  {
    assert Path(value, [w, w'], [s], w, w');
  }

  lemma Onward(value: Outpoint -> nat, a: World, b: World, c: World)
    requires Leads(value, a, b) && Leads(value, b, c)
    ensures Leads(value, a, c)
  {
    hide Next;
    var ws, steps :| Path(value, ws, steps, a, b);
    var us, more :| Path(value, us, more, b, c);
    var vs, all := ws + us[1..], steps + more;
    forall i | 0 <= i < |all| ensures Next(value, vs[i], all[i], vs[i + 1]) {
      if i < |steps| {
        assert Next(value, ws[i], steps[i], ws[i + 1]);
      } else {
        assert Next(value, us[i - |steps|], more[i - |steps|], us[i - |steps| + 1]);
      }
    }
    assert Path(value, vs, all, a, c);
  }

  function Drain(o: Outpoint, worth: nat): Request {
    Request(Address(0), 1.0, [o], worth, 0)
  }

  lemma NewSweepPrepares(value: Outpoint -> nat, w: World, id: Id, o: Outpoint) returns (w': World)
    requires w.phase == Idle && id !in w.journal && |w.journal| < MAX_RECORDS && o in w.utxos && o !in w.freezes
    requires 1 <= value(o) <= SAFE_INTEGER
    ensures Leads(value, w, w') && id in w'.journal && w' == w.(journal := w'.journal, freezes := w'.freezes)
    ensures w'.journal == w.journal[id := w'.journal[id]]
    ensures w'.journal[id].status == Prepared && w'.journal[id].request.inputs == [o] && Holds(w'.freezes, id, o)
  {
    var checked := NewSweepReserves(value, w, id, o);
    var tx := Tx([o], [Output(Address(0), value(o))]);
    assert Paid(tx.outs) == value(o) + Paid(tx.outs[1..]);
    w' := FinishPrepare(checked, id, Some(tx), true);
    OneStep(value, checked, Built(Some(tx), true), w');
    Onward(value, w, checked, w');
  }

  lemma NewSweepReserves(value: Outpoint -> nat, w: World, id: Id, o: Outpoint) returns (w': World)
    requires w.phase == Idle && id !in w.journal && |w.journal| < MAX_RECORDS && o in w.utxos && o !in w.freezes
    requires 1 <= value(o) <= SAFE_INTEGER
    ensures Leads(value, w, w')
    ensures w' == w.(journal := w.journal[id := Record(Drain(o, value(o)), Preparing, None, None, false)],
                     freezes := w.freezes[o := Sweep(id)], phase := Building(id))
  {
    var request := Drain(o, value(o));
    assert InOrder([o]) == [o];
    assert Total(value, [o]) == value(o) + Total(value, [o][1..]);
    assert Normalize(request) == Some(request);
    var begun := BeginPrepare(w, value, id, request, true);
    OneStep(value, w, Prepare(id, request, true), begun);
    hide Leads;
    var frozen := FreezeOne(begun, id, 0, o, true);
    OneStep(value, begun, Freeze(true), frozen);
    Onward(value, w, begun, frozen);
    w' := Recheck(frozen, id, 0);
    OneStep(value, frozen, Check, w');
    Onward(value, w, frozen, w');
  }

  /**
   * Whenever a sweep at prepared or later lacks an input that is free in the
   * wallet, the run can go on to a second one at prepared that has it too.
   */
  lemma UnheldCanBeShared(value: Outpoint -> nat, w: World, a: Id, b: Id, o: Outpoint) returns (w': World)
    requires a in w.journal && Live(w.journal[a].status) && o in w.journal[a].request.inputs
    requires b !in w.journal && |w.journal| < MAX_RECORDS && o in w.utxos && o !in w.freezes
    requires 1 <= value(o) <= SAFE_INTEGER
    ensures Leads(value, w, w') && a != b
    ensures a in w'.journal && Live(w'.journal[a].status) && o in w'.journal[a].request.inputs
    ensures b in w'.journal && Live(w'.journal[b].status) && o in w'.journal[b].request.inputs
  {
    OneStep(value, w, Crash, Stop(w));
    w' := NewSweepPrepares(value, Stop(w), b, o);
    Onward(value, w, Stop(w), w');
  }

  /** A reservation of COIN through which another holder passes: it ends with the coin free. */
  lemma Slips(w: World, id: Id) returns (w': World)
    requires id in w.journal && w.journal[id].request == DRAIN && w.phase == Reserving(id, 0, false)
    requires COIN in w.utxos && COIN !in w.freezes
    ensures Leads(Flat, w, w')
    ensures w' == w.(phase := if w.journal[id].status == Preparing then Building(id) else Admitting(id))
  {
    var taken := Perform(w, Take(COIN, 3));
    OneStep(Flat, w, Others(Take(COIN, 3)), taken);
    var met := FreezeOne(taken, id, 0, COIN, true);
    OneStep(Flat, taken, Freeze(true), met);
    Onward(Flat, w, taken, met);
    var open := Perform(met, LetGo(COIN, 3));
    assert open.freezes == w.freezes;
    OneStep(Flat, met, Others(LetGo(COIN, 3)), open);
    Onward(Flat, w, met, open);
    w' := Recheck(open, id, 0);
    assert Resolves(open, id, DRAIN.inputs);
    OneStep(Flat, open, Check, w');
    Onward(Flat, w, open, w');
  }

  lemma SlipsToPrepared(w: World, id: Id) returns (w': World)
    requires w.phase == Idle && id !in w.journal && |w.journal| < MAX_RECORDS
    requires COIN in w.utxos && COIN !in w.freezes
    ensures Leads(Flat, w, w') && w'.phase == Idle && w'.freezes == w.freezes && w'.utxos == w.utxos
    ensures w'.sent == w.sent
    ensures w'.journal == w.journal[id := Record(DRAIN, Prepared, Some(DRAINED), Some(Quote(900, 100)), false)]
  {
    assert InOrder([COIN]) == [COIN];
    assert Total(Flat, [COIN]) == 1000 + Total(Flat, [COIN][1..]);
    assert Normalize(DRAIN) == Some(DRAIN);
    var begun := BeginPrepare(w, Flat, id, DRAIN, true);
    OneStep(Flat, w, Prepare(id, DRAIN, true), begun);
    var slipped := Slips(begun, id);
    Onward(Flat, w, begun, slipped);
    assert Paid(DRAINED.outs) == 900 + Paid(DRAINED.outs[1..]);
    w' := FinishPrepare(slipped, id, Some(DRAINED), true);
    OneStep(Flat, slipped, Built(Some(DRAINED), true), w');
    Onward(Flat, w, slipped, w');
  }

  lemma SlipsToSent(w: World, id: Id) returns (w': World)
    requires w.phase == Idle && COIN in w.utxos && COIN !in w.freezes
    requires id in w.journal && w.journal[id] == Record(DRAIN, Prepared, Some(DRAINED), Some(Quote(900, 100)), false)
    ensures Leads(Flat, w, w') && w'.phase == Idle && w'.freezes == w.freezes && w'.utxos == w.utxos
    ensures w'.journal == w.journal[id := Record(DRAIN, Submitted, Some(DRAINED), Some(Quote(900, 100)), true)]
    ensures w'.sent == w.sent + {(id, DRAINED)}
  {
    assert Paid(DRAINED.outs) == 900 + Paid(DRAINED.outs[1..]);
    var begun := BeginSubmit(w, id, false, true);
    OneStep(Flat, w, Submit(id, false, true), begun);
    var slipped := Slips(begun, id);
    Onward(Flat, w, begun, slipped);
    var charged := Admit(slipped, id, true, true);
    OneStep(Flat, slipped, Charge(true, true), charged);
    Onward(Flat, w, slipped, charged);
    var sent := Send(charged, id);
    OneStep(Flat, charged, Broadcast, sent);
    Onward(Flat, w, charged, sent);
    w' := AfterSend(sent, id, true, true);
    OneStep(Flat, sent, Answered(true, true), w');
    Onward(Flat, w, sent, w');
  }

  /** In a run that is not undisturbed, two sweeps can both broadcast a spend of the same coin. */
  lemma DisturbedSweepsShare() returns (ws: seq<World>, steps: seq<Step>)
    ensures Run(Flat, ws, steps)
    ensures (Id(1), DRAINED) in ws[|steps|].sent && (Id(2), DRAINED) in ws[|steps|].sent
    ensures !Undisturbed(ws, steps)
  {
    var start := World(map[], map[], {COIN}, [], {}, Idle);
    var first := SlipsToPrepared(start, Id(1));
    var firstSent := SlipsToSent(first, Id(1));
    Onward(Flat, start, first, firstSent);
    var second := SlipsToPrepared(firstSent, Id(2));
    Onward(Flat, start, firstSent, second);
    var end := SlipsToSent(second, Id(2));
    Onward(Flat, start, second, end);
    hide Next, Disturbs;
    ws, steps :| Path(Flat, ws, steps, start, end);
    assert Run(Flat, ws, steps);
    if Undisturbed(ws, steps) {
      UndisturbedBroadcasts(Flat, ws, steps, |steps|, (Id(1), DRAINED), (Id(2), DRAINED), COIN);
    }
  }
}
