/**
 * Which deliveries the webhook scheduler accepts (src/cli/webhooks.ts), where it
 * puts them, and what becomes of the counters: every offer is accepted exactly if
 * what is held leaves room for it under both byte ceilings.
 */
module WebhookOffers {
  import opened Webhooks

  // ----- what is held -----

  /** Bytes a destination holds, ready, in its lanes and running. */
  ghost function HoldsBytes(m: Manager, d: nat): nat
    requires d in m.dests
  {
    Waiting(m.dests[d], false) + RunWeight(m.running, d, false)
  }

  ghost function HeldSizes(m: Manager, w: nat): map<nat, nat> {
    map d | d in m.dests && m.dests[d].webhook == w && !m.dests[d].removed :: HoldsBytes(m, d)
  }

  /** Bytes a registration holds, over its live destinations. */
  ghost function HeldBy(m: Manager, w: nat): nat {
    Sum(HeldSizes(m, w))
  }

  ghost function AllSizes(m: Manager): map<nat, nat> {
    map d | d in m.dests :: HoldsBytes(m, d)
  }

  /** Bytes held in all. */
  ghost function HeldInAll(m: Manager): nat {
    Sum(AllSizes(m))
  }

  ghost predicate Fits(c: Limits, m: Manager, w: nat, bytes: nat) {
    HeldBy(m, w) + bytes <= c.maxBytesPerWebhook && HeldInAll(m) + bytes <= c.maxBytes
  }

  lemma {:induction false} SumZeros(m: map<nat, nat>)
    requires forall k :: k in m ==> m[k] == 0
    ensures Sum(m) == 0
    decreases |m|
  {
    if m != map[] {
      var k :| k in m;
      SumRemove(m, k);
      assert m == (m - {k})[k := m[k]];
      SumZeros(m - {k});
    }
  }

  lemma SumOnly(m: map<nat, nat>, k: nat)
    requires forall j :: j in m && j != k ==> m[j] == 0
    ensures Sum(m) == if k in m then m[k] else 0
  {
    if k in m {
      SumRemove(m, k);
      SumZeros(m - {k});
    } else {
      SumZeros(m);
    }
  }

  lemma ExactAt(c: Limits, m: Manager, d: nat)
    requires Valid(c, m) && d in m.dests
    ensures Exact(m.dests[d], m.running, d) && Laned(m.dests[d], m.running, d, m.accepted)
  {
    hide Accounted, InLineExact, WithinCaps, CurrentOk, Exact, Laned;
  }

  /** A live destination that is not its registration's current one holds nothing. */
  lemma OthersEmpty(c: Limits, m: Manager, d: nat)
    requires Valid(c, m) && d in m.dests && !m.dests[d].removed
    requires !(m.dests[d].webhook in m.current && m.current[m.dests[d].webhook] == d)
    ensures HoldsBytes(m, d) == 0 && m.dests[d].ready == [] && m.dests[d].lanes == map[]
  {
    ExactAt(c, m, d);
    assert m.dests[d].ready == [] && m.dests[d].active == 0;
    IdleHoldsNothing(m.dests[d], m.running, d, m.accepted);
  }

  lemma InAllIs(c: Limits, m: Manager)
    requires Valid(c, m)
    ensures HeldInAll(m) == m.queuedBytes
  {
    hide AllExact, AllLaned, InLineExact, WithinCaps, CurrentOk, Sum, Waiting, RunWeight;
    assert AllSizes(m) == ByteSizes(m.dests, m.running);
  }

  lemma CurrentIs(c: Limits, m: Manager, w: nat)
    requires Valid(c, m) && w in m.current
    ensures m.current[w] in m.dests && m.dests[m.current[w]].webhook == w && !m.dests[m.current[w]].removed
  {
    hide AllExact, AllLaned, InLineExact, WithinCaps, Accounted;
  }

  lemma HeldIs(c: Limits, m: Manager, w: nat)
    requires Valid(c, m)
    ensures HeldBy(m, w) == HeldBytes(m, w)
  {
    hide Valid, Sum, Waiting, RunWeight, Laned, HoldsBytes;
    var sizes := HeldSizes(m, w);
    forall d | d in sizes && !(w in m.current && m.current[w] == d) ensures sizes[d] == 0 {
      OthersEmpty(c, m, d);
    }
    if w in m.current {
      CurrentIs(c, m, w);
      ExactAt(c, m, m.current[w]);
      SumOnly(sizes, m.current[w]);
      HoldsIs(m, m.current[w]);
    } else {
      SumZeros(sizes);
    }
  }

  lemma HoldsIs(m: Manager, d: nat)
    requires d in m.dests && Exact(m.dests[d], m.running, d)
    ensures HoldsBytes(m, d) == m.dests[d].bytes
  {
  }

  // ----- one offer -----

  /** An earlier delivery of the hash is ready or running for this destination. */
  ghost predicate HashBusy(m: Manager, d: nat, h: nat) {
    d in m.dests && (ReadyHas(m.dests[d], h) || RunsHash(m.running, d, h))
  }

  /** `x` is put in its hash's lane if an earlier one is ready or running, else at the end of the ready ones. */
  ghost predicate PutAt(m: Manager, m': Manager, d: nat, x: Delivery) {
    && d in m'.dests
    && var was := if d in m.dests then m.dests[d] else NewDestination(m'.dests[d].webhook);
       if x.hash.Some? && HashBusy(m, d, x.hash.value)
       then && x.hash.value in was.lanes && x.hash.value in m'.dests[d].lanes
            && m'.dests[d].lanes[x.hash.value] == was.lanes[x.hash.value] + [x] && m'.dests[d].ready == was.ready
       else m'.dests[d].ready == was.ready + [x]
  }

  /** The delivery goes to the registration's one live destination that holds anything, and nothing else moves. */
  ghost predicate Placed(m: Manager, m': Manager, w: nat, x: Delivery) {
    exists d ::
      && PutAt(m, m', d, x) && m'.dests[d].webhook == w && !m'.dests[d].removed
      && (forall e :: e in m.dests && e != d ==> e in m'.dests && m'.dests[e] == m.dests[e])
      && m'.running == m.running
  }

  lemma LaneIsBusy(c: Limits, m: Manager, d: nat, h: nat)
    requires Valid(c, m) && d in m.dests && !m.dests[d].removed
    ensures h in m.dests[d].lanes <==> HashBusy(m, d, h)
  {
    ExactAt(c, m, d);
    hide Valid, Exact, OneHead, LaneOrder;
  }

  lemma NewIsIdle(c: Limits, m: Manager)
    requires Valid(c, m)
    ensures m.made !in m.dests
  {
    hide AllExact, AllLaned, InLineExact, WithinCaps, Accounted;
  }

  lemma EnqueuePuts(c: Limits, m: Manager, d: nat, x: Delivery)
    requires d in m.dests
    ensures var m' := Enqueue(c, m, d, x);
      && m'.accepted == m.accepted && m'.overflowed == m.overflowed && m'.running == m.running
      && d in m'.dests && m'.dests[d].webhook == m.dests[d].webhook && m'.dests[d].removed == m.dests[d].removed
      && (forall e :: e in m.dests && e != d ==> e in m'.dests && m'.dests[e] == m.dests[e])
      && (if x.hash.Some? && x.hash.value in m.dests[d].lanes
          then && x.hash.value in m'.dests[d].lanes && m'.dests[d].ready == m.dests[d].ready
               && m'.dests[d].lanes[x.hash.value] == m.dests[d].lanes[x.hash.value] + [x]
          else m'.dests[d].ready == m.dests[d].ready + [x])
  {
  }

  /** The destination an offer goes to, as it was. */
  ghost function TargetWas(m: Manager, w: nat): Destination {
    if TargetOf(m, w) in m.dests then m.dests[TargetOf(m, w)] else NewDestination(w)
  }

  lemma CountedIs(m: Manager, w: nat, bytes: nat)
    requires w in m.current ==> m.current[w] in m.dests && m.dests[m.current[w]].webhook == w && !m.dests[m.current[w]].removed
    requires m.made !in m.dests
    ensures var d, was := TargetOf(m, w), TargetWas(m, w);
      && was.webhook == w && !was.removed && d in Ensured(m, w).dests
      && var m1 := Counted(Ensured(m, w), d, bytes);
         && m1.accepted == m.accepted + 1 && m1.overflowed == m.overflowed && m1.running == m.running
         && d in m1.dests && m1.dests[d] == was.(bytes := was.bytes + bytes)
         && (forall e :: e in m.dests && e != d ==> e in m1.dests && m1.dests[e] == m.dests[e])
  {
  }

  lemma BusyTarget(c: Limits, m: Manager, w: nat, h: nat)
    requires Valid(c, m)
    ensures h in TargetWas(m, w).lanes <==> HashBusy(m, TargetOf(m, w), h)
  {
    hide Valid, ReadyHas, RunsHash;
    NewIsIdle(c, m);
    if w in m.current {
      CurrentIs(c, m, w);
      LaneIsBusy(c, m, m.current[w], h);
    }
  }

  lemma OfferPlaces(c: Limits, m: Manager, w: nat, bytes: nat, hash: Option<nat>)
    requires Valid(c, m) && !Overflows(c, m, w, bytes)
    ensures var m' := Offer(c, m, w, bytes, hash);
      && m'.accepted == m.accepted + 1 && m'.overflowed == m.overflowed
      && Placed(m, m', w, Delivery(m.accepted, bytes, hash))
  {
    hide Valid, Enqueue, Ensured, Counted, HashBusy, Overflows, TargetOf;
    NewIsIdle(c, m);
    if w in m.current {
      CurrentIs(c, m, w);
    }
    CountedIs(m, w, bytes);
    var d, x := TargetOf(m, w), Delivery(m.accepted, bytes, hash);
    EnqueuePuts(c, Counted(Ensured(m, w), d, bytes), d, x);
    if hash.Some? {
      BusyTarget(c, m, w, hash.value);
    }
    assert PutAt(m, Offer(c, m, w, bytes, hash), d, x);
  }

  /** The one way an offer can go. */
  ghost predicate Goes(c: Limits, m: Manager, w: nat, bytes: nat, hash: Option<nat>, m': Manager) {
    if Fits(c, m, w, bytes)
    then && m'.accepted == m.accepted + 1 && m'.overflowed == m.overflowed
         && Placed(m, m', w, Delivery(m.accepted, bytes, hash))
    else m' == m.(overflowed := m.overflowed + 1)
  }

  /**
   * An offer is accepted exactly if what the registration holds and what is held
   * in all leave room for it; it is then numbered next and put in its place. Else
   * it is counted as overflowed, and nothing else changes.
   */
  lemma OfferExactly(c: Limits, m: Manager, w: nat, bytes: nat, hash: Option<nat>)
    requires Valid(c, m)
    ensures Goes(c, m, w, bytes, hash, Offer(c, m, w, bytes, hash))
  {
    hide HeldBy, HeldInAll, Valid, Enqueue, Placed, Ensured, Counted, HeldBytes;
    HeldIs(c, m, w);
    InAllIs(c, m);
    if Fits(c, m, w, bytes) {
      OfferPlaces(c, m, w, bytes, hash);
    }
  }

  // ----- counters over runs -----

  /** What the pump and the discards leave as it is. */
  ghost predicate SameTotals(m: Manager, m': Manager) {
    m'.accepted == m.accepted && m'.overflowed == m.overflowed && m'.delivered == m.delivered && m'.failed == m.failed
  }

  lemma {:induction false} PumpTotals(c: Limits, m: Manager)
    ensures SameTotals(m, Pump(c, m)) && Pump(c, m).discarded == m.discarded
    decreases c.maxActive - |m.running|, |m.line|
  {
    if |m.running| < c.maxActive && m.line != [] && m.line[0] in m.dests && m.starts !in m.running {
      PumpOnceProgress(c, m);
      PumpTotals(c, PumpOnce(c, m));
    }
  }

  lemma {:induction false} DiscardAllTotals(m: Manager, ws: seq<nat>)
    ensures SameTotals(m, DiscardAll(m, ws))
    decreases |ws|
  {
    if ws != [] {
      hide Waiting;
      var m1 := if ws[0] in m.current && m.current[ws[0]] in m.dests then Discard(m, m.current[ws[0]]) else m;
      DiscardAllTotals(m1, ws[1..]);
    }
  }

  /** One offer after another, each from the state the one before left. */
  ghost predicate Offers(c: Limits, chain: seq<Manager>, ws: seq<nat>, bytes: nat, hash: Option<nat>) {
    && |chain| == |ws| + 1
    && (forall k :: 0 <= k < |ws| ==> Valid(c, chain[k]) && Goes(c, chain[k], ws[k], bytes, hash, chain[k + 1]))
  }

  lemma {:induction false} OfferAllChain(c: Limits, m: Manager, ws: seq<nat>, bytes: nat, hash: Option<nat>)
    returns (chain: seq<Manager>)
    requires Valid(c, m)
    ensures Offers(c, chain, ws, bytes, hash) && chain[0] == m && chain[|ws|] == OfferAll(c, m, ws, bytes, hash)
    ensures SameEnds(m, OfferAll(c, m, ws, bytes, hash))
    decreases |ws|
  {
    hide Valid, Offer, Goes;
    if ws == [] {
      chain := [m];
    } else {
      var m1 := Offer(c, m, ws[0], bytes, hash);
      NewIsIdle(c, m);
      OfferValid(c, m, ws[0], bytes, hash);
      OfferExactly(c, m, ws[0], bytes, hash);
      OfferEnds(c, m, ws[0], bytes, hash);
      var rest := OfferAllChain(c, m1, ws[1..], bytes, hash);
      chain := [m] + rest;
      forall k | 0 <= k < |ws| ensures Valid(c, chain[k]) && Goes(c, chain[k], ws[k], bytes, hash, chain[k + 1]) {
        if k > 0 {
          assert chain[k] == rest[k - 1] && chain[k + 1] == rest[k] && ws[k] == ws[1..][k - 1];
        }
      }
    }
  }

  ghost predicate SameEnds(m: Manager, m': Manager) {
    m'.delivered == m.delivered && m'.failed == m.failed
  }

  lemma EnqueueEnds(c: Limits, m: Manager, d: nat, x: Delivery)
    requires d in m.dests
    ensures SameEnds(m, Enqueue(c, m, d, x))
  {
    hide Filed;
  }

  lemma OfferEnds(c: Limits, m: Manager, w: nat, bytes: nat, hash: Option<nat>)
    ensures SameEnds(m, Offer(c, m, w, bytes, hash))
  {
    hide Enqueue, Overflows;
    if !Overflows(c, m, w, bytes) {
      var d := TargetOf(m, w);
      EnqueueEnds(c, Counted(Ensured(m, w), d, bytes), d, Delivery(m.accepted, bytes, hash));
    }
  }

  lemma {:induction false} ChainCounts(c: Limits, chain: seq<Manager>, ws: seq<nat>, bytes: nat, hash: Option<nat>, k: nat)
    requires Offers(c, chain, ws, bytes, hash) && k <= |ws|
    ensures chain[k].accepted + chain[k].overflowed == chain[0].accepted + chain[0].overflowed + k
  {
    hide Valid, Fits, Placed;
    if k > 0 {
      ChainCounts(c, chain, ws, bytes, hash, k - 1);
      assert Goes(c, chain[k - 1], ws[k - 1], bytes, hash, chain[k]);
    }
  }

  /** Every dispatch of a run, unless stopped, offers the event to each registration in turn. */
  lemma DispatchOffers(c: Limits, ms: seq<Manager>, acts: seq<Action>, i: nat) returns (chain: seq<Manager>)
    requires IsRun(c, ms, acts) && i < |acts| && acts[i].Dispatch? && !ms[i].stopped
    ensures Offers(c, chain, acts[i].ws, acts[i].bytes, acts[i].hash) && chain[0] == ms[i]
    ensures ms[i + 1] == Pump(c, chain[|acts[i].ws|])
  {
    hide Valid, Pump, Offers;
    RunValid(c, ms, acts, i);
    assert Step(c, ms[i], acts[i], ms[i + 1]);
    chain := OfferAllChain(c, ms[i], acts[i].ws, acts[i].bytes, acts[i].hash);
  }

  /** How many offers an action makes. */
  function OffersOf(m: Manager, a: Action): nat {
    if a.Dispatch? && !m.stopped then |a.ws| else 0
  }

  ghost function OffersMade(ms: seq<Manager>, acts: seq<Action>, i: nat): nat
    requires i <= |acts| && |ms| == |acts| + 1
  {
    if i == 0 then 0 else OffersMade(ms, acts, i - 1) + OffersOf(ms[i - 1], acts[i - 1])
  }

  /** How many deliveries ended in one way. */
  ghost function Endings(acts: seq<Action>, i: nat, ending: Ending): nat
    requires i <= |acts|
  {
    if i == 0 then 0
    else Endings(acts, i - 1, ending) + (if acts[i - 1].End? && acts[i - 1].ending == ending then 1 else 0)
  }

  lemma StepTotals(c: Limits, m: Manager, a: Action, m': Manager)
    requires Valid(c, m) && Step(c, m, a, m')
    ensures m'.accepted + m'.overflowed == m.accepted + m.overflowed + OffersOf(m, a)
    ensures m'.delivered == m.delivered + (if a.End? && a.ending == Delivered then 1 else 0)
    ensures m'.failed == m.failed + (if a.End? && a.ending == GaveUp then 1 else 0)
  {
    hide Valid, Pump, OfferAll, DiscardAll, Offers, JoinLine, Ended;
    match a
    case Register(w) =>
    case Unregister(w) => DiscardAllTotals(m.(webhooks := m.webhooks - {w}, stopped := m.stopped), [w]);
    case Dispatch(ws, bytes, hash) =>
      if !m.stopped {
        var chain := OfferAllChain(c, m, ws, bytes, hash);
        ChainCounts(c, chain, ws, bytes, hash, |ws|);
        PumpTotals(c, OfferAll(c, m, ws, bytes, hash));
      }
    case End(r, ending) =>
      JoinLineTotals(c, Released(m, r, ending), m.running[r].destination);
      PumpTotals(c, Finish(c, m, r, ending));
    case Stop(ws) => DiscardAllTotals(m.(webhooks := m.webhooks, stopped := true), ws);
    case Clear(ws) => DiscardAllTotals(m.(webhooks := {}, stopped := m.stopped), ws);
  }

  lemma JoinLineTotals(c: Limits, m: Manager, d: nat)
    requires d in m.dests
    ensures SameTotals(m, JoinLine(c, m, d))
  {
  }

  /** Every offer of a run is counted once, as accepted or overflowed; deliveries are counted as they ended. */
  lemma {:induction false} RunTotals(c: Limits, ms: seq<Manager>, acts: seq<Action>, i: nat)
    requires IsRun(c, ms, acts) && i < |ms|
    ensures ms[i].accepted + ms[i].overflowed == OffersMade(ms, acts, i)
    ensures ms[i].delivered == Endings(acts, i, Delivered) && ms[i].failed == Endings(acts, i, GaveUp)
    ensures ms[i].discarded ==
      OffersMade(ms, acts, i) - ms[i].overflowed - Endings(acts, i, Delivered) - Endings(acts, i, GaveUp)
      - ms[i].queued - |ms[i].running|
  {
    hide Valid, Step;
    if i > 0 {
      RunTotals(c, ms, acts, i - 1);
      RunValid(c, ms, acts, i - 1);
      assert Step(c, ms[i - 1], acts[i - 1], ms[i]);
      StepTotals(c, ms[i - 1], acts[i - 1], ms[i]);
    }
    RunValid(c, ms, acts, i);
    BooksAt(c, ms[i]);
  }

  lemma BooksAt(c: Limits, m: Manager)
    requires Valid(c, m)
    ensures m.accepted == m.delivered + m.failed + m.discarded + m.queued + |m.running|
  {
    hide AllExact, AllLaned, InLineExact, WithinCaps, CurrentOk, Sum;
  }

  // ----- removed and stopped registrations -----

  predicate Empty(dest: Destination) {
    dest.ready == [] && dest.lanes == map[]
  }

  /** Whatever waits, waits for one of these registrations, at its current destination. */
  ghost predicate OnlyFor(m: Manager, ws: seq<nat>) {
    forall d :: d in m.dests && !Empty(m.dests[d]) ==>
      m.dests[d].webhook in ws && m.dests[d].webhook in m.current && m.current[m.dests[d].webhook] == d
  }

  ghost predicate NothingWaits(m: Manager) {
    forall d :: d in m.dests ==> Empty(m.dests[d])
  }

  /** What waits is at a current destination. */
  lemma WaitsAtCurrent(c: Limits, m: Manager, d: nat)
    requires Valid(c, m) && d in m.dests && !Empty(m.dests[d])
    ensures !m.dests[d].removed && m.dests[d].webhook in m.current && m.current[m.dests[d].webhook] == d
  {
    hide Valid, Laned, HoldsBytes;
    ExactAt(c, m, d);
    if !m.dests[d].removed && !(m.dests[d].webhook in m.current && m.current[m.dests[d].webhook] == d) {
      OthersEmpty(c, m, d);
    }
  }

  lemma {:induction false} DiscardAllEmpties(m: Manager, ws: seq<nat>)
    requires OnlyFor(m, ws)
    ensures NothingWaits(DiscardAll(m, ws))
    decreases |ws|
  {
    if ws != [] {
      hide Waiting;
      var m1 := if ws[0] in m.current && m.current[ws[0]] in m.dests then Discard(m, m.current[ws[0]]) else m;
      DiscardAllEmpties(m1, ws[1..]);
    }
  }

  lemma {:induction false} DiscardAllKeeps(m: Manager, ws: seq<nat>)
    ensures DiscardAll(m, ws).stopped == m.stopped && DiscardAll(m, ws).webhooks == m.webhooks
    ensures NothingWaits(m) ==> NothingWaits(DiscardAll(m, ws))
    decreases |ws|
  {
    if ws != [] {
      hide Waiting;
      var m1 := if ws[0] in m.current && m.current[ws[0]] in m.dests then Discard(m, m.current[ws[0]]) else m;
      DiscardAllKeeps(m1, ws[1..]);
    }
  }

  /** With nothing waiting, the pump starts nothing. */
  lemma {:induction false} PumpNothing(c: Limits, m: Manager)
    requires NothingWaits(m)
    ensures NothingWaits(Pump(c, m)) && Pump(c, m).starts == m.starts && Pump(c, m).stopped == m.stopped
    decreases c.maxActive - |m.running|, |m.line|
  {
    if |m.running| < c.maxActive && m.line != [] && m.line[0] in m.dests && m.starts !in m.running {
      PumpOnceProgress(c, m);
      PumpNothing(c, PumpOnce(c, m));
    }
  }

  lemma FinishNothing(c: Limits, m: Manager, r: nat, ending: Ending)
    requires r in m.running && m.running[r].destination in m.dests
    ensures var m' := Finish(c, m, r, ending);
      (NothingWaits(m) ==> NothingWaits(m') && m'.starts == m.starts) && m'.stopped == m.stopped && m'.webhooks == m.webhooks
  {
  }

  /** A stop or a clear leaves nothing waiting. */
  lemma ClearedEmpty(c: Limits, m: Manager, a: Action, m': Manager)
    requires Valid(c, m) && Step(c, m, a, m') && (a.Stop? || a.Clear?)
    ensures NothingWaits(m')
  {
    hide Valid, DiscardAll;
    forall d | d in m.dests && !Empty(m.dests[d])
      ensures m.dests[d].webhook in a.ws && m.dests[d].webhook in m.current && m.current[m.dests[d].webhook] == d {
      WaitsAtCurrent(c, m, d);
    }
    DiscardAllEmpties(if a.Stop? then m.(webhooks := m.webhooks, stopped := true)
                      else m.(webhooks := {}, stopped := m.stopped), a.ws);
  }

  lemma StoppedStep(c: Limits, m: Manager, a: Action, m': Manager)
    requires Step(c, m, a, m') && m.stopped && NothingWaits(m)
    ensures m'.stopped && NothingWaits(m') && m'.starts == m.starts
  {
    hide Pump, DiscardAll, Finish;
    match a
    case Register(w) =>
    case Unregister(w) =>
      var m1 := m.(webhooks := m.webhooks - {w}, stopped := m.stopped);
      DiscardAllKeeps(m1, [w]);
      DiscardAllStarts(m1, [w]);
    case Dispatch(ws, bytes, hash) =>
    case End(r, ending) =>
      FinishNothing(c, m, r, ending);
      PumpNothing(c, Finish(c, m, r, ending));
    case Stop(ws) =>
      DiscardAllKeeps(m.(webhooks := m.webhooks, stopped := true), ws);
      DiscardAllStarts(m.(webhooks := m.webhooks, stopped := true), ws);
    case Clear(ws) =>
      DiscardAllKeeps(m.(webhooks := {}, stopped := m.stopped), ws);
      DiscardAllStarts(m.(webhooks := {}, stopped := m.stopped), ws);
  }

  lemma {:induction false} DiscardAllStarts(m: Manager, ws: seq<nat>)
    ensures DiscardAll(m, ws).starts == m.starts
    decreases |ws|
  {
    if ws != [] {
      hide Waiting;
      DiscardAllStarts(if ws[0] in m.current && m.current[ws[0]] in m.dests then Discard(m, m.current[ws[0]]) else m, ws[1..]);
    }
  }

  /** From a stop on, nothing waits and no delivery starts. */
  lemma {:induction false} StoppedForGood(c: Limits, ms: seq<Manager>, acts: seq<Action>, j: nat, i: nat)
    requires IsRun(c, ms, acts) && j < i < |ms| && acts[j].Stop?
    ensures ms[i].stopped && NothingWaits(ms[i]) && ms[i].starts == ms[j].starts
    decreases i
  {
    hide Valid, DiscardAll, NothingWaits;
    assert Step(c, ms[j], acts[j], ms[j + 1]) && Step(c, ms[i - 1], acts[i - 1], ms[i]);
    if j == i - 1 {
      RunValid(c, ms, acts, j);
      ClearedEmpty(c, ms[j], acts[j], ms[i]);
      DiscardAllKeeps(ms[j].(webhooks := ms[j].webhooks, stopped := true), acts[j].ws);
      DiscardAllStarts(ms[j].(webhooks := ms[j].webhooks, stopped := true), acts[j].ws);
    } else {
      hide Step;
      StoppedForGood(c, ms, acts, j, i - 1);
      StoppedStep(c, ms[i - 1], acts[i - 1], ms[i]);
    }
  }

  lemma DiscardsOne(m: Manager, w: nat)
    ensures DiscardAll(m, [w]) == if w in m.current && m.current[w] in m.dests then Discard(m, m.current[w]) else m
  {
    hide Waiting;
    var m1 := if w in m.current && m.current[w] in m.dests then Discard(m, m.current[w]) else m;
    assert [w][1..] == [] && DiscardAll(m1, []) == m1;
  }

  /** Unregistering leaves nothing waiting for the registration, and other registrations as they were. */
  lemma UnregisterEmpties(c: Limits, ms: seq<Manager>, acts: seq<Action>, i: nat, d: nat)
    requires IsRun(c, ms, acts) && i < |acts| && acts[i].Unregister? && d in ms[i].dests
    ensures d in ms[i + 1].dests && ms[i + 1].webhooks == ms[i].webhooks - {acts[i].w}
    ensures if ms[i].dests[d].webhook == acts[i].w then Empty(ms[i + 1].dests[d]) else ms[i + 1].dests[d] == ms[i].dests[d]
    ensures ms[i + 1].running == ms[i].running
    ensures ms[i].dests[d].webhook == acts[i].w && (exists r :: RunsAt(ms[i].running, d, r)) ==> ms[i + 1].dests[d].removed
  {
    hide Valid, Waiting, RunsAt;
    RunValid(c, ms, acts, i);
    assert Step(c, ms[i], acts[i], ms[i + 1]);
    var m := ms[i].(webhooks := ms[i].webhooks - {acts[i].w}, stopped := ms[i].stopped);
    DiscardsOne(m, acts[i].w);
    if acts[i].w in ms[i].current {
      CurrentIs(c, ms[i], acts[i].w);
    }
    if !Empty(ms[i].dests[d]) {
      WaitsAtCurrent(c, ms[i], d);
    }
    if r :| RunsAt(ms[i].running, d, r) {
      RunsAtCurrent(c, ms[i], d, r);
    }
  }

  /** What runs, runs for a removed destination or a current one. */
  lemma RunsAtCurrent(c: Limits, m: Manager, d: nat, r: nat)
    requires Valid(c, m) && d in m.dests && RunsAt(m.running, d, r)
    ensures m.dests[d].removed || (m.dests[d].webhook in m.current && m.current[m.dests[d].webhook] == d)
  {
    ExactAt(c, m, d);
    SumRemove(RunSizes(m.running, d, true), r);
    hide AllExact, AllLaned, Accounted, InLineExact, WithinCaps, Laned, Sum;
  }
}
