/**
 * OnchainSweeps (src/cli/onchain-sweep.ts) as the object it is: prepare, submit and
 * cancel with their reserve and release loops. Every call walks a path of the
 * steps of the sweep model, so what holds at each point of a run holds at each of
 * its awaits. What the storage, the wallet, the chain and the other freezers do
 * during a call is given as `Weather`.
 */
module OnchainSweepsCode {
  import opened OnchainSweeps

  datatype Code =
    | InvalidParams | Conflict | CannotSign | InputUnavailable | QuoteExpired | JournalFull
    | NotPersisted | SendFailed | NotFound | NotPrepared | AlreadySubmitted | OverLimit

  datatype Answer = Info(status: Status) | Refused(code: Code)

  /**
   * What a call meets. Saves that land: `opening` its first, `coin(k)` the one of
   * the k-th coin, `charging` the charge, `closing` its last. What others do in its
   * awaits: `early(k)` and `late(k)` around the k-th coin, `rest` before the next
   * step, `sending` during the broadcast.
   */
  datatype Weather = Weather(
    opening: bool, coin: nat -> bool, charging: bool, closing: bool,
    early: nat -> seq<Act>, late: nat -> seq<Act>, rest: seq<Act>, sending: seq<Act>,
    canSign: bool, built: Option<Tx>, mined: bool, allowed: bool, accepted: bool)

  lemma Advance(value: Outpoint -> nat, from: World, w: World, s: Step, w': World)
    requires Sound(value, w) && Leads(value, from, w) && Next(value, w, s, w')
    ensures Sound(value, w') && Leads(value, from, w')
  {
    hide Sound, Next, Leads;
    StepSound(value, w, s, w');
    OneStep(value, w, s, w');
    Onward(value, from, w, w');
  }

  lemma Standing(value: Outpoint -> nat, w: World)
    ensures Leads(value, w, w)
  {
    assert Path(value, [w], [], w, w);
  }

  // ----- what a call meets, and what then passes -----

  /** The wallet's coins and their freezes. */
  datatype Purse = Purse(freezes: map<Outpoint, Tag>, utxos: set<Outpoint>)

  function Look(w: World): Purse {
    Purse(w.freezes, w.utxos)
  }

  /** What another freezer, or the chain, does to them. */
  function Acted(c: Purse, a: Act): Purse {
    if a.Coins? then c.(utxos := a.utxos)
    else if a.Take? && a.o in c.utxos && a.o !in c.freezes then c.(freezes := c.freezes[a.o := Other(a.holder)])
    else if a.LetGo? && a.o in c.freezes && c.freezes[a.o] == Other(a.holder) then c.(freezes := c.freezes - {a.o})
    else c
  }

  function ActedAll(c: Purse, acts: seq<Act>): Purse {
    if acts == [] then c else Acted(ActedAll(c, acts[..|acts| - 1]), acts[|acts| - 1])
  }

  /** Every input is in the wallet, and frozen by nobody else. */
  predicate Ready(c: Purse, id: Id, inputs: seq<Outpoint>) {
    forall i :: 0 <= i < |inputs| ==>
      inputs[i] in c.utxos && (inputs[i] in c.freezes ==> c.freezes[inputs[i]] == Sweep(id))
  }

  function Pinned(c: Purse, id: Id, o: Outpoint): Purse {
    if o in c.freezes then c else c.(freezes := c.freezes[o := Sweep(id)])
  }

  /** The coins after the k-th was frozen and all were checked. */
  function AfterCoin(c: Purse, id: Id, env: Weather, inputs: seq<Outpoint>, k: nat): Purse
    requires k < |inputs|
  {
    ActedAll(Pinned(ActedAll(c, env.early(k)), id, inputs[k]), env.late(k))
  }

  /** The k-th coin can be frozen, or is, and all inputs are ready after that. */
  predicate CoinPasses(c: Purse, id: Id, env: Weather, inputs: seq<Outpoint>, k: nat)
    requires k < |inputs|
  {
    var met := ActedAll(c, env.early(k));
    && inputs[k] in met.utxos && (inputs[k] in met.freezes || env.coin(k))
    && Ready(AfterCoin(c, id, env, inputs, k), id, inputs)
  }

  /** The coins before the k-th is frozen, all before it having passed. */
  function CoinsAt(c: Purse, id: Id, env: Weather, inputs: seq<Outpoint>, k: nat): Purse
    requires k <= |inputs|
  {
    if k == 0 then c else AfterCoin(CoinsAt(c, id, env, inputs, k - 1), id, env, inputs, k - 1)
  }

  ghost predicate ReservationPasses(c: Purse, id: Id, env: Weather, inputs: seq<Outpoint>) {
    forall k: nat :: k < |inputs| ==> CoinPasses(CoinsAt(c, id, env, inputs, k), id, env, inputs, k)
  }

  predicate Ours(c: Purse, id: Id, o: Outpoint) {
    o in c.freezes && c.freezes[o] == Sweep(id)
  }

  /** Every coin still frozen for the sweep can be let go. */
  ghost predicate ReleasePasses(c: Purse, id: Id, env: Weather, inputs: seq<Outpoint>) {
    forall k: nat :: k < |inputs| && Ours(c, id, inputs[k]) ==> env.coin(k)
  }

  /** Nobody else touches a sweep's own freezes. */
  lemma {:induction false} OursStay(c: Purse, acts: seq<Act>, id: Id, o: Outpoint)
    ensures Ours(ActedAll(c, acts), id, o) <==> Ours(c, id, o)
  {
    if acts != [] {
      OursStay(c, acts[..|acts| - 1], id, o);
    }
  }

  lemma InputsDistinct(value: Outpoint -> nat, w: World, id: Id)
    requires Sound(value, w) && id in w.journal
    ensures var inputs := w.journal[id].request.inputs; forall i, j :: 0 <= i < j < |inputs| ==> inputs[i] != inputs[j]
  {
    assert RecordOk(value, w.journal[id]);
  }

  /** The transaction spends the reviewed inputs to the one reviewed address, for a fee within the cap. */
  predicate Reviewed(request: Request, tx: Tx) {
    && multiset(tx.ins) == multiset(request.inputs)
    && |tx.outs| == 1 && tx.outs[0].script == request.address && tx.outs[0].value > 0
    && 0 <= request.debit - tx.outs[0].value <= request.maxFee
  }

  /** The signed transaction is there and as reviewed, the inputs are still ready, and the save lands. */
  predicate BuildPasses(c: Purse, id: Id, request: Request, env: Weather) {
    && env.built.Some? && Ready(ActedAll(c, env.rest), id, request.inputs)
    && Reviewed(request, env.built.value) && env.closing
  }

  /** Everything prepare asks for, from a call that finds these coins. */
  ghost predicate PreparePasses(c: Purse, value: Outpoint -> nat, id: Id, request: Request, env: Weather) {
    && env.canSign && Ready(c, id, request.inputs) && Total(value, request.inputs) == request.debit
    && ReservationPasses(c, id, env, request.inputs)
    && BuildPasses(CoinsAt(c, id, env, request.inputs, |request.inputs|), id, request, env)
  }

  /** A prepared sweep comes to its charge. */
  ghost predicate ComesToCharge(c: Purse, id: Id, request: Request, env: Weather) {
    Ready(c, id, request.inputs) && ReservationPasses(c, id, env, request.inputs)
  }

  lemma VerifiedIs(r: Record, tx: Tx)
    requires r.quote.None?
    ensures Verified(r.(tx := Some(tx))) <==> Reviewed(r.request, tx)
  {
    if |tx.outs| == 1 {
      assert tx.outs[1..] == [] && Paid(tx.outs) == tx.outs[0].value + Paid([]);
    }
  }

  lemma PreparingBare(value: Outpoint -> nat, w: World, id: Id)
    requires Sound(value, w) && id in w.journal && w.journal[id].status == Preparing
    ensures w.journal[id].quote.None?
  {
    assert RecordOk(value, w.journal[id]);
  }

  lemma LiveVerified(value: Outpoint -> nat, w: World, id: Id)
    requires Sound(value, w) && id in w.journal && Live(w.journal[id].status)
    ensures Verified(w.journal[id])
  {
    assert RecordOk(value, w.journal[id]);
  }

  lemma ReadyIs(w: World, id: Id, inputs: seq<Outpoint>)
    ensures Resolves(w, id, inputs) <==> Ready(Look(w), id, inputs)
  {
  }

  lemma ActedIs(w: World, a: Act)
    ensures Look(Perform(w, a)) == Acted(Look(w), a)
  {
  }

  class Sweeps {
    const value: Outpoint -> nat
    var w: World

    /** A process starts from whatever is on disk. */
    constructor (value: Outpoint -> nat, stored: World)
      requires Sound(value, stored)
      ensures this.value == value && Sound(value, w) && w == Stop(stored)
    {
      this.value := value;
      w := Stop(stored);
      new;
      CrashSound(value, stored);
    }

    /** An await: the other freezers act, and the coins may change. */
    method Await(acts: seq<Act>, ghost from: World)
      requires Sound(value, w) && Leads(value, from, w)
      modifies this`w
      ensures Sound(value, w) && Leads(value, from, w)
      ensures w.journal == old(w.journal) && w.phase == old(w.phase)
      ensures w.admitted == old(w.admitted) && w.sent == old(w.sent)
      ensures Look(w) == ActedAll(Look(old(w)), acts)
    {
      hide Sound, Leads, Acted;
      for i := 0 to |acts|
        invariant Sound(value, w) && Leads(value, from, w)
        invariant w.journal == old(w.journal) && w.phase == old(w.phase)
        invariant w.admitted == old(w.admitted) && w.sent == old(w.sent)
        invariant Look(w) == ActedAll(Look(old(w)), acts[..i])
      {
        assert acts[..i + 1][..i] == acts[..i];
        ActedIs(w, acts[i]);
        Advance(value, from, w, Others(acts[i]), Perform(w, acts[i]));
        w := Perform(w, acts[i]);
      }
      assert acts[..|acts|] == acts;
    }

    /** resolveInputs: every reviewed coin is still here and nobody else's. */
    method ResolveInputs(id: Id, inputs: seq<Outpoint>) returns (ok: bool)
      ensures ok <==> Resolves(w, id, inputs)
    {
      for i := 0 to |inputs|
        invariant forall j :: 0 <= j < i ==>
          inputs[j] in w.utxos && (inputs[j] in w.freezes ==> w.freezes[inputs[j]] == Sweep(id))
      {
        var o := inputs[i];
        if o !in w.utxos || (o in w.freezes && w.freezes[o] != Sweep(id)) {
          return false;
        }
      }
      return true;
    }

    /** Freeze the inputs one by one, checking all of them again after each. */
    method Reserve(id: Id, env: Weather, ghost from: World) returns (refusal: Option<Code>)
      requires Sound(value, w) && Leads(value, from, w) && w.phase == Reserving(id, 0, false)
      modifies this`w
      ensures Sound(value, w) && Leads(value, from, w)
      ensures w.journal == old(w.journal) && w.admitted == old(w.admitted) && w.sent == old(w.sent)
      ensures w.phase ==
        if refusal.Some? then Idle else if w.journal[id].status == Preparing then Building(id) else Admitting(id)
      ensures refusal.Some? ==> refusal.value in {NotPersisted, InputUnavailable}
      ensures refusal.None? <==> ReservationPasses(Look(old(w)), id, env, w.journal[id].request.inputs)
      ensures refusal.None? ==>
        Look(w) == CoinsAt(Look(old(w)), id, env, w.journal[id].request.inputs, |w.journal[id].request.inputs|)
    {
      hide RecordsOk, NoStray, BooksOk, SentOk, Leads, Resolves, CoinPasses, AfterCoin;
      var inputs := w.journal[id].request.inputs;
      ghost var start := Look(w);
      var k := 0;
      while k < |inputs|
        invariant 0 <= k <= |inputs|
        invariant Sound(value, w) && Leads(value, from, w)
        invariant w.journal == old(w.journal) && w.admitted == old(w.admitted) && w.sent == old(w.sent)
        invariant w.phase ==
          if k < |inputs| then Reserving(id, k, false)
          else if w.journal[id].status == Preparing then Building(id) else Admitting(id)
        invariant Look(w) == CoinsAt(start, id, env, inputs, k)
        invariant forall j: nat :: j < k ==> CoinPasses(CoinsAt(start, id, env, inputs, j), id, env, inputs, j)
      {
        refusal := ReserveOne(id, env, k, from);
        if refusal.Some? {
          return;
        }
        k := k + 1;
      }
      return None;
    }

    method ReserveOne(id: Id, env: Weather, k: nat, ghost from: World) returns (refusal: Option<Code>)
      requires Sound(value, w) && Leads(value, from, w) && w.phase == Reserving(id, k, false)
      modifies this`w
      ensures Sound(value, w) && Leads(value, from, w)
      ensures w.journal == old(w.journal) && w.admitted == old(w.admitted) && w.sent == old(w.sent)
      ensures id in w.journal && w.phase ==
        if refusal.Some? then Idle
        else if k + 1 < |w.journal[id].request.inputs| then Reserving(id, k + 1, false)
        else if w.journal[id].status == Preparing then Building(id) else Admitting(id)
      ensures refusal.Some? ==> refusal.value in {NotPersisted, InputUnavailable}
      ensures k < |w.journal[id].request.inputs|
      ensures refusal.None? <==> CoinPasses(Look(old(w)), id, env, w.journal[id].request.inputs, k)
      ensures refusal.None? ==> Look(w) == AfterCoin(Look(old(w)), id, env, w.journal[id].request.inputs, k)
    {
      hide RecordsOk, NoStray, BooksOk, SentOk, Leads, Resolves, Total, Ready, ActedAll;
      Await(env.early(k), from);
      var inputs := w.journal[id].request.inputs;
      var o := inputs[k];
      ghost var before := w;
      if o !in w.utxos || (o !in w.freezes && !env.coin(k)) {
        w := w.(phase := Idle);
        Advance(value, from, before, Freeze(env.coin(k)), w);
        return Some(NotPersisted);
      }
      if o !in w.freezes {
        w := w.(freezes := w.freezes[o := Sweep(id)]);
      }
      w := w.(phase := Reserving(id, k, true));
      Advance(value, from, before, Freeze(env.coin(k)), w);
      Await(env.late(k), from);
      var passed := ResolveInputs(id, inputs);
      ReadyIs(w, id, inputs);
      ghost var checked := w;
      w := Recheck(w, id, k);
      Advance(value, from, checked, Check, w);
      return if passed then None else Some(InputUnavailable);
    }

    /** Prepared means: on disk, verified against the review, and paid for by coins worth the debit. */
    method Prepare(id: Id, input: Request, env: Weather) returns (answer: Answer)
      requires Sound(value, w) && w.phase == Idle
      modifies this`w
      ensures Sound(value, w) && Leads(value, old(w), w) && w.phase == Idle
      ensures w.admitted == old(w.admitted) && w.sent == old(w.sent)
      ensures answer == Refused(InvalidParams) <==> Normalize(input).None?
      ensures answer == Refused(Conflict) <==>
        Normalize(input).Some? && id in old(w.journal) && old(w.journal[id]).request != Normalize(input).value
      ensures answer.Info? ==>
        && id in w.journal && w.journal[id].status == answer.status && answer.status != Preparing
        && Normalize(input) == Some(w.journal[id].request)
      ensures id in old(w.journal) && old(w.journal[id]).status != Preparing ==> w == old(w)
      ensures answer.Info? <==>
        && Normalize(input).Some?
        && (if id in old(w.journal) && old(w.journal[id]).status != Preparing
            then old(w.journal[id]).request == Normalize(input).value
            else && (if id in old(w.journal) then old(w.journal[id]).request == Normalize(input).value
                     else |old(w.journal)| < MAX_RECORDS && env.opening)
                 && PreparePasses(Look(old(w)), value, id, Normalize(input).value, env))
    {
      hide RecordsOk, NoStray, BooksOk, SentOk, Leads, Resolves, Total, Verified, ReservationPasses, BuildPasses, CoinsAt, Ready;
      Standing(value, w);
      var normal := Normalize(input);
      if normal.None? {
        return Refused(InvalidParams);
      }
      var request := normal.value;
      if id in w.journal && w.journal[id].request != request {
        return Refused(Conflict);
      }
      if id in w.journal && w.journal[id].status != Preparing {
        return Info(w.journal[id].status);
      }
      if !env.canSign {
        return Refused(CannotSign);
      }
      var resolves := ResolveInputs(id, request.inputs);
      ReadyIs(w, id, request.inputs);
      if !resolves {
        return Refused(InputUnavailable);
      }
      if Total(value, request.inputs) != request.debit {
        return Refused(QuoteExpired);
      }
      if id !in w.journal && |w.journal| >= MAX_RECORDS {
        return Refused(JournalFull);
      }
      if id !in w.journal && !env.opening {
        return Refused(NotPersisted);
      }
      ghost var start := w;
      w := BeginPrepare(w, value, id, request, env.opening);
      Advance(value, start, start, OnchainSweeps.Prepare(id, input, env.opening), w);
      var refusal := Reserve(id, env, start);
      if refusal.Some? {
        return Refused(refusal.value);
      }
      answer := Build(id, env, start);
    }

    /** Sign, check the result against the review once more, and only then save it. */
    method Build(id: Id, env: Weather, ghost from: World) returns (answer: Answer)
      requires Sound(value, w) && Leads(value, from, w) && w.phase == Building(id)
      modifies this`w
      ensures Sound(value, w) && Leads(value, from, w) && w.phase == Idle
      ensures w.admitted == old(w.admitted) && w.sent == old(w.sent)
      ensures id in w.journal && w.journal[id].request == old(w.journal[id].request)
      ensures answer.Info? ==> answer.status == Prepared && w.journal[id].status == Prepared && env.built == w.journal[id].tx
      ensures answer.Refused? ==> w.journal == old(w.journal) && answer.code !in {InvalidParams, Conflict}
      ensures answer.Info? <==> BuildPasses(Look(old(w)), id, old(w.journal[id]).request, env)
    {
      hide RecordsOk, NoStray, BooksOk, SentOk, Leads, Resolves, Total, Verified, Ready, ActedAll;
      PreparingBare(value, w, id);
      if env.built.Some? {
        VerifiedIs(w.journal[id], env.built.value);
      }
      Await(env.rest, from);
      ghost var before := w;
      var r := w.journal[id];
      var resolves := ResolveInputs(id, r.request.inputs);
      ReadyIs(w, id, r.request.inputs);
      w := FinishPrepare(w, id, env.built, env.closing);
      Advance(value, from, before, Built(env.built, env.closing), w);
      if env.built.None? {
        return Refused(SendFailed);
      }
      if !resolves {
        return Refused(InputUnavailable);
      }
      if !Verified(r.(tx := env.built)) {
        return Refused(QuoteExpired);
      }
      return if env.closing then Info(Prepared) else Refused(NotPersisted);
    }

    /** Submitted means: charged, on disk as submitted, and the stored bytes were sent. */
    method Submit(id: Id, env: Weather) returns (answer: Answer)
      requires Sound(value, w) && w.phase == Idle
      modifies this`w
      ensures Sound(value, w) && Leads(value, old(w), w) && w.phase == Idle
      ensures answer == Refused(NotFound) <==> id !in old(w.journal)
      ensures answer == Refused(NotPrepared) <==> id in old(w.journal) && !Live(old(w.journal[id]).status)
      ensures answer.Info? ==> id in w.journal && Out(w.journal[id].status)
      ensures answer == Info(Submitted) ==> w.journal[id].tx.Some? && (id, w.journal[id].tx.value) in w.sent
      ensures answer == Info(Confirmed) <==>
        id in old(w.journal) && Out(old(w.journal[id]).status) && env.mined && env.opening
      ensures answer == Refused(OverLimit) <==>
        && id in old(w.journal) && old(w.journal[id]).status == Prepared
        && ComesToCharge(Look(old(w)), id, old(w.journal[id]).request, env) && !env.allowed
      ensures answer == Info(Submitted) <==>
        && id in old(w.journal) && Live(old(w.journal[id]).status) && !(Out(old(w.journal[id]).status) && env.mined)
        && (old(w.journal[id]).status == Prepared ==>
              ComesToCharge(Look(old(w)), id, old(w.journal[id]).request, env) && env.allowed && env.charging)
        && (old(w.journal[id]).status == Confirmed ==> env.opening)
        && env.closing
      ensures w.admitted == old(w.admitted) +
        if && id in old(w.journal) && old(w.journal[id]).status == Prepared
           && ComesToCharge(Look(old(w)), id, old(w.journal[id]).request, env) && env.allowed && env.charging
        then [(id, old(w.journal[id]).request.debit)] else []
    {
      hide RecordsOk, NoStray, BooksOk, SentOk, Leads, Resolves, Total, Verified, ReservationPasses, Ready, CoinsAt;
      Standing(value, w);
      if id !in w.journal {
        return Refused(NotFound);
      }
      var r := w.journal[id];
      if !Live(r.status) {
        return Refused(NotPrepared);
      }
      ghost var start := w;
      LiveVerified(value, w, id);
      ReadyIs(w, id, r.request.inputs);
      if Out(r.status) && env.mined {
        w := BeginSubmit(w, id, env.mined, env.opening);
        Advance(value, start, start, OnchainSweeps.Submit(id, env.mined, env.opening), w);
        return if env.opening then Info(Confirmed) else Refused(NotPersisted);
      }
      var resolves := ResolveInputs(id, r.request.inputs);
      w := BeginSubmit(w, id, env.mined, env.opening);
      Advance(value, start, start, OnchainSweeps.Submit(id, env.mined, env.opening), w);
      if !Verified(r) {
        return Refused(QuoteExpired);
      }
      if r.status == Prepared {
        if !resolves {
          return Refused(InputUnavailable);
        }
        answer := SubmitPrepared(id, env, start);
        return;
      }
      if r.status == Confirmed && !env.opening {
        return Refused(NotPersisted);
      }
      answer := SendStored(id, env, start);
    }

    /** The part of submit a prepared sweep goes through: reserved again, charged once, sent. */
    method SubmitPrepared(id: Id, env: Weather, ghost from: World) returns (answer: Answer)
      requires Sound(value, w) && Leads(value, from, w) && w.phase == Reserving(id, 0, false)
      requires id in w.journal && w.journal[id].status == Prepared
      modifies this`w
      ensures Sound(value, w) && Leads(value, from, w) && w.phase == Idle
      ensures var passes := ReservationPasses(Look(old(w)), id, env, old(w.journal[id]).request.inputs);
        && (answer == Refused(OverLimit) <==> passes && !env.allowed)
        && (answer == Info(Submitted) <==> passes && env.allowed && env.charging && env.closing)
        && answer !in {Info(Confirmed), Refused(NotFound), Refused(NotPrepared)}
        && (answer.Info? ==> answer == Info(Submitted))
        && w.admitted == old(w.admitted) +
             if passes && env.allowed && env.charging then [(id, old(w.journal[id]).request.debit)] else []
      ensures answer == Info(Submitted) ==>
        id in w.journal && Out(w.journal[id].status) && w.journal[id].tx.Some? && (id, w.journal[id].tx.value) in w.sent
    {
      hide RecordsOk, NoStray, BooksOk, SentOk, Leads, Resolves, Total, Verified, ReservationPasses, Ready, CoinsAt;
      var refusal := Reserve(id, env, from);
      if refusal.Some? {
        return Refused(refusal.value);
      }
      var charged := ChargeOnce(id, env, from);
      if !charged {
        return Refused(if env.allowed then NotPersisted else OverLimit);
      }
      answer := SendStored(id, env, from);
    }

    method ChargeOnce(id: Id, env: Weather, ghost from: World) returns (charged: bool)
      requires Sound(value, w) && Leads(value, from, w) && w.phase == Admitting(id)
      modifies this`w
      ensures Sound(value, w) && Leads(value, from, w) && w.phase == if charged then Sending(id) else Idle
      ensures !charged ==> w.journal == old(w.journal) && w.admitted == old(w.admitted)
      ensures charged ==> w.admitted == old(w.admitted) + [(id, old(w.journal[id].request.debit))]
      ensures charged ==> w.journal == old(w.journal)[id := old(w.journal[id]).(status := Submitted)]
      ensures charged <==> env.allowed && env.charging
      ensures w.sent == old(w.sent)
    {
      hide RecordsOk, NoStray, BooksOk, SentOk, Leads, Total;
      Await(env.rest, from);
      ghost var before := w;
      charged := env.allowed && env.charging;
      w := Admit(w, id, env.allowed, env.charging);
      Advance(value, from, before, Charge(env.allowed, env.charging), w);
    }

    method SendStored(id: Id, env: Weather, ghost from: World) returns (answer: Answer)
      requires Sound(value, w) && Leads(value, from, w) && w.phase == Sending(id)
      modifies this`w
      ensures Sound(value, w) && Leads(value, from, w) && w.phase == Idle
      ensures answer == if env.closing then Info(Submitted) else Refused(NotPersisted)
      ensures w.admitted == old(w.admitted) && id in old(w.journal) && old(w.journal[id]).tx.Some?
      ensures w.sent == old(w.sent) + {(id, old(w.journal[id]).tx.value)}
      ensures env.closing ==>
        w.journal == old(w.journal)[id := old(w.journal[id]).(accepted := old(w.journal[id]).accepted || env.accepted)]
      ensures !env.closing ==> w.journal == old(w.journal)
      ensures id in w.journal && Out(w.journal[id].status) && w.journal[id].tx.Some?
      ensures (id, w.journal[id].tx.value) in w.sent
    {
      hide NoStray, BooksOk, SentOk, Leads, Total;
      assert RecordOk(value, w.journal[id]);
      hide RecordsOk;
      ghost var before := w;
      w := Send(w, id);
      Advance(value, from, before, Broadcast, w);
      Await(env.sending, from);
      ghost var told := w;
      w := AfterSend(w, id, env.accepted, env.closing);
      Advance(value, from, told, Answered(env.accepted, env.closing), w);
      return if env.closing then Info(Submitted) else Refused(NotPersisted);
    }

    /** Cancelled means: on disk as cancelled, and no coin is frozen for it any more. */
    method Cancel(id: Id, env: Weather) returns (answer: Answer)
      requires Sound(value, w) && w.phase == Idle
      modifies this`w
      ensures Sound(value, w) && Leads(value, old(w), w) && w.phase == Idle
      ensures w.admitted == old(w.admitted) && w.sent == old(w.sent)
      ensures answer == Refused(NotFound) <==> id !in old(w.journal)
      ensures answer == Refused(AlreadySubmitted) <==> id in old(w.journal) && Out(old(w.journal[id]).status)
      ensures answer.Info? ==>
        answer.status == Cancelled && id in w.journal && w.journal[id].status == Cancelled && HoldsNone(w.freezes, id)
      ensures answer.Info? <==>
        && id in old(w.journal) && !Out(old(w.journal[id]).status) && env.opening && env.closing
        && ReleasePasses(Look(old(w)), id, env, old(w.journal[id]).request.inputs)
    {
      hide RecordsOk, NoStray, BooksOk, SentOk, Leads, Total, ReleasePasses, ActedAll;
      Standing(value, w);
      if id !in w.journal {
        return Refused(NotFound);
      }
      if Out(w.journal[id].status) {
        return Refused(AlreadySubmitted);
      }
      ghost var start := w;
      w := BeginCancel(w, id, env.opening);
      Advance(value, start, start, OnchainSweeps.Cancel(id, env.opening), w);
      if !env.opening {
        return Refused(NotPersisted);
      }
      var released := ReleaseInputs(id, env, start);
      if !released {
        return Refused(NotPersisted);
      }
      Await(env.rest, start);
      ghost var before := w;
      w := FinishCancel(w, id, env.closing);
      Advance(value, start, before, Close(env.closing), w);
      if !env.closing {
        return Refused(NotPersisted);
      }
      Empty(value, w, id);
      return Info(Cancelled);
    }

    method ReleaseInputs(id: Id, env: Weather, ghost from: World) returns (ok: bool)
      requires Sound(value, w) && Leads(value, from, w) && w.phase == Releasing(id, 0)
      modifies this`w
      ensures Sound(value, w) && Leads(value, from, w)
      ensures w.journal == old(w.journal) && w.admitted == old(w.admitted) && w.sent == old(w.sent)
      ensures id in w.journal
      ensures w.phase == if ok then Releasing(id, |w.journal[id].request.inputs|) else Idle
      ensures ok <==> ReleasePasses(Look(old(w)), id, env, w.journal[id].request.inputs)
    {
      hide RecordsOk, NoStray, BooksOk, SentOk, Leads, Total, Acted, ActedAll;
      InputsDistinct(value, w, id);
      var inputs := w.journal[id].request.inputs;
      ghost var start := Look(w);
      for k := 0 to |inputs|
        invariant Sound(value, w) && Leads(value, from, w) && w.phase == Releasing(id, k)
        invariant w.journal == old(w.journal) && w.admitted == old(w.admitted) && w.sent == old(w.sent)
        invariant forall j :: k <= j < |inputs| ==> (Ours(Look(w), id, inputs[j]) <==> Ours(start, id, inputs[j]))
        invariant forall j: nat :: j < k && Ours(start, id, inputs[j]) ==> env.coin(j)
      {
        forall j | k <= j < |inputs| ensures Ours(ActedAll(Look(w), env.early(k)), id, inputs[j]) <==> Ours(Look(w), id, inputs[j]) {
          OursStay(Look(w), env.early(k), id, inputs[j]);
        }
        Await(env.early(k), from);
        ghost var before := w;
        var o := inputs[k];
        if o in w.freezes && w.freezes[o] == Sweep(id) {
          if !env.coin(k) {
            w := w.(phase := Idle);
            Advance(value, from, before, Release(env.coin(k)), w);
            return false;
          }
          w := w.(freezes := w.freezes - {o});
        }
        w := w.(phase := Releasing(id, k + 1));
        Advance(value, from, before, Release(env.coin(k)), w);
      }
      return true;
    }
  }

  lemma Empty(value: Outpoint -> nat, w: World, id: Id)
    requires Sound(value, w) && id in w.journal && w.journal[id].status == Cancelled
    ensures HoldsNone(w.freezes, id)
  {
    assert forall o :: Holds(w.freezes, id, o) ==> Backed(w.journal, id, o);
  }
}
