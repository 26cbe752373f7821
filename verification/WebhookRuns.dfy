/**
 * What the webhook scheduler promises over whole runs (src/cli/webhooks.ts): work
 * is never left waiting while a worker is free, a destination in line gets its
 * turn, and a registration's deliveries of one payment hash start in the order
 * they were accepted, each after the one before has ended.
 */
module WebhookRuns {
  import opened Webhooks

  // ----- work is conserved -----

  /** Either every worker is busy, or no live destination with a free worker of its own has a ready delivery. */
  ghost predicate Conserved(c: Limits, m: Manager) {
    || |m.running| == c.maxActive
    || forall d :: d in m.dests ==>
         m.dests[d].removed || m.dests[d].ready == [] || m.dests[d].active >= c.maxActivePerWebhook
  }

  lemma PumpConserves(c: Limits, m: Manager)
    requires Valid(c, m)
    ensures Conserved(c, Pump(c, m))
  {
    hide Valid, Pump;
    forall d | d in Pump(c, m).dests && |Pump(c, m).running| != c.maxActive
      ensures Pump(c, m).dests[d].removed || Pump(c, m).dests[d].ready == []
              || Pump(c, m).dests[d].active >= c.maxActivePerWebhook {
      WorkConserving(c, m, d);
    }
  }

  lemma {:induction false} DiscardAllConserves(c: Limits, m: Manager, ws: seq<nat>)
    requires Conserved(c, m)
    ensures Conserved(c, DiscardAll(m, ws))
    decreases |ws|
  {
    hide Waiting;
    if ws != [] {
      DiscardAllConserves(c, if ws[0] in m.current && m.current[ws[0]] in m.dests then Discard(m, m.current[ws[0]]) else m, ws[1..]);
    }
  }

  lemma StepConserves(c: Limits, m: Manager, a: Action, m': Manager)
    requires Valid(c, m) && Step(c, m, a, m') && Conserved(c, m)
    ensures Conserved(c, m')
  {
    hide Valid, Pump, DiscardAll, OfferAll, Finish;
    match a
    case Register(w) =>
    case Unregister(w) => DiscardAllConserves(c, m.(webhooks := m.webhooks - {w}, stopped := m.stopped), [w]);
    case Dispatch(ws, bytes, hash) =>
      OfferAllValid(c, m, ws, bytes, hash);
      PumpConserves(c, OfferAll(c, m, ws, bytes, hash));
    case End(r, ending) =>
      FinishValid(c, m, r, ending);
      PumpConserves(c, Finish(c, m, r, ending));
    case Stop(ws) => DiscardAllConserves(c, m.(webhooks := m.webhooks, stopped := true), ws);
    case Clear(ws) => DiscardAllConserves(c, m.(webhooks := {}, stopped := m.stopped), ws);
  }

  /** In every reachable state work is conserved. */
  lemma {:induction false} RunConserves(c: Limits, ms: seq<Manager>, acts: seq<Action>, i: nat)
    requires IsRun(c, ms, acts) && i < |ms|
    ensures Conserved(c, ms[i])
  {
    if i > 0 {
      hide Valid, Step, Conserved;
      RunConserves(c, ms, acts, i - 1);
      RunValid(c, ms, acts, i - 1);
      assert Step(c, ms[i - 1], acts[i - 1], ms[i]);
      StepConserves(c, ms[i - 1], acts[i - 1], ms[i]);
    }
  }

  // ----- what a step leaves of the one before -----

  /** Destinations stay, with their registration, and stay removed. */
  ghost predicate DestsStay(m: Manager, m': Manager) {
    forall d :: d in m.dests ==>
      d in m'.dests && m'.dests[d].webhook == m.dests[d].webhook && (m.dests[d].removed ==> m'.dests[d].removed)
  }

  /** Running deliveries stay as they are, but for those that `gone` names; new ones are numbered on. */
  ghost predicate RunsStay(m: Manager, m': Manager, gone: set<nat>) {
    && m.starts <= m'.starts && m.accepted <= m'.accepted
    && (forall r :: r in m.running && r !in gone ==> r in m'.running && m'.running[r] == m.running[r])
    && (forall r :: r in m'.running && r < m.starts ==> r in m.running && m'.running[r] == m.running[r])
  }

  /** `y` waits at a destination, ready or in a lane. */
  ghost predicate WaitsIn(dest: Destination, y: Delivery) {
    y in dest.ready || InLanes(dest.lanes, y)
  }

  ghost predicate InLanes(lanes: map<nat, seq<Delivery>>, y: Delivery) {
    exists h :: h in lanes && y in lanes[h]
  }

  ghost predicate WaitsAt(m: Manager, e: nat, y: Delivery) {
    e in m.dests && WaitsIn(m.dests[e], y)
  }

  /** `y` runs for destination `e` as one of the deliveries started from `from` on. */
  ghost predicate NewAt(m: Manager, from: nat, e: nat, y: Delivery) {
    exists r :: r >= from && r in m.running && m.running[r] == Run(e, y)
  }

  /** Whatever waits or has newly started was waiting before, had newly started before, or is accepted later. */
  ghost predicate Came(m: Manager, from: nat, m': Manager) {
    && (forall e, y :: WaitsAt(m', e, y) ==> WaitsAt(m, e, y) || y.number >= m.accepted)
    && (forall e, y :: NewAt(m', from, e, y) ==> NewAt(m, from, e, y) || WaitsAt(m, e, y) || y.number >= m.accepted)
  }

  ghost predicate Follows(m: Manager, from: nat, m': Manager, gone: set<nat>) {
    DestsStay(m, m') && RunsStay(m, m', gone) && Came(m, from, m')
  }

  lemma FollowsTrans(m: Manager, from: nat, m1: Manager, m2: Manager, gone: set<nat>)
    requires Follows(m, from, m1, gone) && Follows(m1, from, m2, {}) && from <= m.starts
    ensures Follows(m, from, m2, gone)
  {
    hide WaitsAt, NewAt;
  }

  lemma FollowsSelf(m: Manager, from: nat)
    ensures Follows(m, from, m, {})
  {
    hide WaitsAt, NewAt;
  }

  /** Only destination `d` changes: it keeps its registration, and what it newly holds is accepted later. */
  lemma DestChanges(m: Manager, m': Manager, d: nat)
    requires d in m'.dests && m'.dests == m.dests[d := m'.dests[d]]
    requires d in m.dests ==>
      m'.dests[d].webhook == m.dests[d].webhook && (m.dests[d].removed ==> m'.dests[d].removed)
    requires forall y :: WaitsIn(m'.dests[d], y) ==> (d in m.dests && WaitsIn(m.dests[d], y)) || y.number >= m.accepted
    ensures DestsStay(m, m')
    ensures forall e, y :: WaitsAt(m', e, y) ==> WaitsAt(m, e, y) || y.number >= m.accepted
  {
    hide WaitsIn;
  }

  lemma SameWaits(dest: Destination, dest': Destination, y: Delivery)
    requires dest'.ready == dest.ready && dest'.lanes == dest.lanes
    ensures WaitsIn(dest', y) <==> WaitsIn(dest, y)
  {
  }

  lemma SameRuns(m: Manager, m': Manager, from: nat)
    requires m'.running == m.running && m.starts <= m'.starts && m.accepted <= m'.accepted
    ensures RunsStay(m, m', {})
    ensures forall e, y :: NewAt(m', from, e, y) ==> NewAt(m, from, e, y)
  {
  }

  lemma JoinLineFollows(c: Limits, m: Manager, d: nat, from: nat)
    requires d in m.dests
    ensures Follows(m, from, JoinLine(c, m, d), {})
  {
    var m' := JoinLine(c, m, d);
    assert m'.dests == m.dests[d := m'.dests[d]];
    forall y ensures WaitsIn(m'.dests[d], y) <==> WaitsIn(m.dests[d], y) {
      SameWaits(m.dests[d], m'.dests[d], y);
    }
    SameRuns(m, m', from);
    hide WaitsIn, NewAt, WaitsAt;
    DestChanges(m, m', d);
  }

  lemma EnsuredFollows(m: Manager, w: nat, from: nat)
    requires CurrentOk(m)
    ensures Follows(m, from, Ensured(m, w), {})
  {
    var m' := Ensured(m, w);
    SameRuns(m, m', from);
    if m' == m {
      FollowsSelf(m, from);
    } else {
      NewIsEmpty(w);
      hide WaitsIn, NewAt, WaitsAt;
      DestChanges(m, m', m.made);
    }
  }

  lemma NewIsEmpty(w: nat)
    ensures forall y :: !WaitsIn(NewDestination(w), y)
  {
  }

  lemma FiledWaits(dest: Destination, x: Delivery, y: Delivery)
    requires WaitsIn(Filed(dest, x), y)
    ensures WaitsIn(dest, y) || y == x
  {
    var dest' := Filed(dest, x);
    if y !in dest'.ready {
      var h :| h in dest'.lanes && y in dest'.lanes[h];
      assert h in dest.lanes && y in dest.lanes[h] ==> InLanes(dest.lanes, y);
    }
  }

  /** A delivery taken by destination `d`: counted, and filed there. */
  lemma TakenFollows(m: Manager, d: nat, bytes: nat, hash: Option<nat>, from: nat)
    requires d in m.dests
    ensures var m1 := Counted(m, d, bytes);
      Follows(m, from, m1.(dests := m1.dests[d := Filed(m1.dests[d], Delivery(m.accepted, bytes, hash))]), {})
  {
    var m1, x := Counted(m, d, bytes), Delivery(m.accepted, bytes, hash);
    var m2 := m1.(dests := m1.dests[d := Filed(m1.dests[d], x)]);
    assert m2.dests == m.dests[d := m2.dests[d]];
    forall y | WaitsIn(m2.dests[d], y) ensures WaitsIn(m.dests[d], y) || y.number >= m.accepted {
      FiledWaits(m1.dests[d], x, y);
      SameWaits(m.dests[d], m1.dests[d], y);
    }
    SameRuns(m, m2, from);
    hide WaitsIn, NewAt, WaitsAt;
    DestChanges(m, m2, d);
  }

  lemma OfferFollows(c: Limits, m: Manager, w: nat, bytes: nat, hash: Option<nat>, from: nat)
    requires CurrentOk(m) && from <= m.starts
    ensures Follows(m, from, Offer(c, m, w, bytes, hash), {})
  {
    hide Follows, Filed;
    if Overflows(c, m, w, bytes) {
      FlagsFollow(m, m.(overflowed := m.overflowed + 1), from);
    } else {
      var d, x := TargetOf(m, w), Delivery(m.accepted, bytes, hash);
      var m0 := Ensured(m, w);
      EnsuredFollows(m, w, from);
      TakenFollows(m0, d, bytes, hash, from);
      var m1 := Counted(m0, d, bytes);
      var m2 := m1.(dests := m1.dests[d := Filed(m1.dests[d], x)]);
      FollowsTrans(m, from, m0, m2, {});
      JoinLineFollows(c, m2, d, from);
      FollowsTrans(m, from, m2, JoinLine(c, m2, d), {});
    }
  }

  lemma FlagsFollow(m: Manager, m': Manager, from: nat)
    requires m'.dests == m.dests && m'.running == m.running && m'.starts == m.starts && m'.accepted == m.accepted
    ensures Follows(m, from, m', {})
  {
    hide WaitsIn;
    SameRuns(m, m', from);
  }

  lemma {:induction false} OfferAllFollows(c: Limits, m: Manager, ws: seq<nat>, bytes: nat, hash: Option<nat>, from: nat)
    requires Valid(c, m) && from <= m.starts
    ensures Follows(m, from, OfferAll(c, m, ws, bytes, hash), {})
    decreases |ws|
  {
    if ws == [] {
      FollowsSelf(m, from);
    } else {
      OfferFollows(c, m, ws[0], bytes, hash, from);
      var m1 := Offer(c, m, ws[0], bytes, hash);
      OfferValid(c, m, ws[0], bytes, hash);
      assert from <= m1.starts;
      hide Follows, Valid, Offer;
      OfferAllFollows(c, m1, ws[1..], bytes, hash, from);
      FollowsTrans(m, from, m1, OfferAll(c, m1, ws[1..], bytes, hash), {});
    }
  }

  lemma UnblockedWaits(dest: Destination, hash: Option<nat>, y: Delivery)
    requires WaitsIn(Unblocked(dest, hash), y)
    ensures WaitsIn(dest, y)
  {
    var dest' := Unblocked(dest, hash);
    if hash.Some? && !dest.removed {
      var h := hash.value;
      if y in dest'.ready {
        assert h in dest.lanes && dest.lanes[h] != [] && y == dest.lanes[h][0] ==> InLanes(dest.lanes, y);
      } else {
        var k :| k in dest'.lanes && y in dest'.lanes[k];
        assert k in dest.lanes && y in dest.lanes[k];
      }
    }
  }

  lemma FinishFollows(c: Limits, m: Manager, r: nat, ending: Ending, from: nat)
    requires r in m.running && m.running[r].destination in m.dests && from <= m.starts
    ensures Follows(m, from, Finish(c, m, r, ending), {r})
  {
    var d := m.running[r].destination;
    var m1 := Released(m, r, ending);
    assert m1.dests == m.dests[d := m1.dests[d]];
    forall y | WaitsIn(m1.dests[d], y) ensures WaitsIn(m.dests[d], y) {
      var dest := m.dests[d].(active := m.dests[d].active - 1, bytes := m.dests[d].bytes - m.running[r].delivery.bytes);
      UnblockedWaits(dest, m.running[r].delivery.hash, y);
      SameWaits(m.dests[d], dest, y);
    }
    assert forall e, y :: NewAt(m1, from, e, y) ==> NewAt(m, from, e, y);
    assert RunsStay(m, m1, {r});
    hide WaitsIn, NewAt, WaitsAt, Ended;
    DestChanges(m, m1, d);
    JoinLineFollows(c, m1, d, from);
    FollowsTrans(m, from, m1, JoinLine(c, m1, d), {r});
  }

  lemma DiscardFollows(m: Manager, d: nat, from: nat)
    requires d in m.dests
    ensures Follows(m, from, Discard(m, d), {})
  {
    hide Waiting;
    var m' := Discard(m, d);
    assert m'.dests == m.dests[d := m'.dests[d]];
    assert forall y :: !WaitsIn(m'.dests[d], y);
    SameRuns(m, m', from);
    hide WaitsIn, NewAt, WaitsAt;
    DestChanges(m, m', d);
  }

  lemma {:induction false} DiscardAllFollows(m: Manager, ws: seq<nat>, from: nat)
    requires from <= m.starts
    ensures Follows(m, from, DiscardAll(m, ws), {})
    ensures DiscardAll(m, ws).running == m.running && DiscardAll(m, ws).line == m.line && DiscardAll(m, ws).starts == m.starts
    decreases |ws|
  {
    if ws == [] {
      FollowsSelf(m, from);
    } else {
      var m1 := if ws[0] in m.current && m.current[ws[0]] in m.dests then Discard(m, m.current[ws[0]]) else m;
      if m1 == m {
        FollowsSelf(m, from);
      } else {
        DiscardFollows(m, m.current[ws[0]], from);
      }
      assert m1.running == m.running && m1.line == m.line && m1.starts == m.starts by { hide Waiting; }
      hide Follows, Discard;
      DiscardAllFollows(m1, ws[1..], from);
      FollowsTrans(m, from, m1, DiscardAll(m1, ws[1..]), {});
    }
  }

  lemma TailWaits(dest: Destination, y: Delivery)
    requires dest.ready != []
    ensures WaitsIn(dest.(inLine := false, ready := dest.ready[1..], active := dest.active + 1), y) ==> WaitsIn(dest, y)
    ensures WaitsIn(dest, dest.ready[0])
  {
  }

  lemma StartedFollows(m: Manager, d: nat, from: nat)
    requires d in m.dests && m.dests[d].ready != [] && from <= m.starts && (forall r :: r in m.running ==> r < m.starts)
    ensures Follows(m, from, Started(m, d), {})
  {
    var m', x := Started(m, d), m.dests[d].ready[0];
    assert m'.dests == m.dests[d := m.dests[d].(inLine := false, ready := m.dests[d].ready[1..], active := m.dests[d].active + 1)];
    forall y | WaitsIn(m'.dests[d], y) ensures WaitsIn(m.dests[d], y) {
      TailWaits(m.dests[d], y);
    }
    TailWaits(m.dests[d], x);
    assert m'.running == m.running[m.starts := Run(d, x)];
    forall e, y | NewAt(m', from, e, y) ensures NewAt(m, from, e, y) || WaitsAt(m, e, y) {
      var r :| r >= from && r in m'.running && m'.running[r] == Run(e, y);
      if r != m.starts {
        assert r in m.running && m.running[r] == Run(e, y);
      }
    }
    hide WaitsIn, NewAt;
    DestChanges(m, m', d);
  }

  lemma SkippedFollows(m: Manager, from: nat)
    requires m.line != [] && m.line[0] in m.dests
    ensures Follows(m, from, Skipped(m), {})
  {
    var m', d := Skipped(m), m.line[0];
    forall y ensures WaitsIn(m'.dests[d], y) <==> WaitsIn(m.dests[d], y) {
      SameWaits(m.dests[d], m'.dests[d], y);
    }
    SameRuns(m, m', from);
    hide WaitsIn, NewAt, WaitsAt;
    DestChanges(m, m', d);
  }

  lemma PumpOnceFollows(c: Limits, m: Manager, from: nat)
    requires Valid(c, m) && m.line != [] && from <= m.starts
    ensures m.line[0] in m.dests && Follows(m, from, PumpOnce(c, m), {})
  {
    HeadKnown(c, m);
    var d := m.line[0];
    assert !m.dests[d].removed ==> m.dests[d].ready != [] by { assert d in m.line; }
    assert forall r :: r in m.running ==> r < m.starts;
    hide Valid, Follows, PumpOnce;
    PumpOnceIs(c, m);
    if m.dests[d].removed {
      SkippedFollows(m, from);
    } else {
      StartedFollows(m, d, from);
      var m1 := Started(m, d);
      JoinLineFollows(c, m1, d, from);
      FollowsTrans(m, from, m1, JoinLine(c, m1, d), {});
    }
  }

  lemma {:induction false} PumpFollows(c: Limits, m: Manager, from: nat)
    requires Valid(c, m) && from <= m.starts
    ensures Follows(m, from, Pump(c, m), {})
    decreases c.maxActive - |m.running|, |m.line|
  {
    if |m.running| < c.maxActive && m.line != [] && m.line[0] in m.dests && m.starts !in m.running {
      PumpOnceValid(c, m);
      PumpOnceFollows(c, m, from);
      PumpOnceProgress(c, m);
      var m1 := PumpOnce(c, m);
      assert from <= m1.starts;
      hide Valid, Follows, PumpOnce;
      PumpFollows(c, m1, from);
      FollowsTrans(m, from, m1, Pump(c, m1), {});
    } else {
      FollowsSelf(m, from);
    }
  }

  /** What ends at this step. */
  function Ends(a: Action): set<nat> {
    if a.End? then {a.r} else {}
  }

  /** Every step follows on from the state before it. */
  lemma StepFollows(c: Limits, m: Manager, a: Action, m': Manager)
    requires Valid(c, m) && Step(c, m, a, m')
    ensures Follows(m, m.starts, m', Ends(a))
  {
    hide Valid, Follows, Pump, DiscardAll, OfferAll, Finish;
    match a
    case Register(w) => FlagsFollow(m, m', m.starts);
    case Unregister(w) =>
      var m1 := m.(webhooks := m.webhooks - {w}, stopped := m.stopped);
      FlagsFollow(m, m1, m.starts);
      DiscardAllFollows(m1, [w], m.starts);
      FollowsTrans(m, m.starts, m1, m', {});
    case Dispatch(ws, bytes, hash) =>
      if m.stopped {
        FollowsSelf(m, m.starts);
      } else {
        var m1 := OfferAll(c, m, ws, bytes, hash);
        OfferAllValid(c, m, ws, bytes, hash);
        OfferAllFollows(c, m, ws, bytes, hash, m.starts);
        StartsGrow(m, m1, {});
        PumpFollows(c, m1, m.starts);
        FollowsTrans(m, m.starts, m1, m', {});
      }
    case End(r, ending) =>
      var m1 := Finish(c, m, r, ending);
      FinishValid(c, m, r, ending);
      FinishFollows(c, m, r, ending, m.starts);
      StartsGrow(m, m1, {r});
      PumpFollows(c, m1, m.starts);
      FollowsTrans(m, m.starts, m1, m', {r});
    case Stop(ws) =>
      var m1 := m.(webhooks := m.webhooks, stopped := true);
      FlagsFollow(m, m1, m.starts);
      DiscardAllFollows(m1, ws, m.starts);
      FollowsTrans(m, m.starts, m1, m', {});
    case Clear(ws) =>
      var m1 := m.(webhooks := {}, stopped := m.stopped);
      FlagsFollow(m, m1, m.starts);
      DiscardAllFollows(m1, ws, m.starts);
      FollowsTrans(m, m.starts, m1, m', {});
  }

  lemma StartsGrow(m: Manager, m': Manager, gone: set<nat>)
    requires Follows(m, m.starts, m', gone)
    ensures m.starts <= m'.starts
  {
  }

  // ----- holds start in order -----

  /** This step starts delivery `r`. */
  ghost predicate StartsRun(m: Manager, m': Manager, r: nat) {
    m.starts <= r && r in m'.running
  }

  /** Run `r` is of hash `h`, for registration `w`. */
  ghost predicate RunOf(m: Manager, r: nat, w: nat, h: nat) {
    && r in m.running && Carries(m.running[r].delivery, h)
    && m.running[r].destination in m.dests && m.dests[m.running[r].destination].webhook == w
  }

  /** The same, and its destination is still there. */
  ghost predicate RunsFor(m: Manager, r: nat, w: nat, h: nat) {
    RunOf(m, r, w, h) && !m.dests[m.running[r].destination].removed
  }

  /** The registration the destination served is still there. */
  ghost predicate Stays(m: Manager, d: nat) {
    d in m.dests && !m.dests[d].removed
  }

  /** Two runs of one hash for one registration are one run. */
  lemma OneAtATime(c: Limits, m: Manager, r: nat, s: nat, w: nat, h: nat)
    requires Valid(c, m) && RunsFor(m, r, w, h) && RunsFor(m, s, w, h)
    ensures r == s
  {
    hide AllLaned, Accounted, InLineExact, WithinCaps;
    CurrentRun(m, r, w, h);
    CurrentRun(m, s, w, h);
    hide AllExact, CurrentOk;
    var d := m.running[r].destination;
    LanedAt(c, m, d);
    assert RunsAt(m.running, d, r) && RunsAt(m.running, d, s);
    assert r != s ==> Apart(m.running[r].delivery, m.running[s].delivery);
  }

  lemma LanedAt(c: Limits, m: Manager, d: nat)
    requires Valid(c, m) && d in m.dests
    ensures Laned(m.dests[d], m.running, d, m.accepted) && Exact(m.dests[d], m.running, d)
  {
    hide Laned, Exact, Accounted, InLineExact, WithinCaps, CurrentOk;
  }

  /** A destination with a run is its registration's current one. */
  lemma CurrentRun(m: Manager, r: nat, w: nat, h: nat)
    requires AllExact(m.dests, m.running) && CurrentOk(m) && RunsFor(m, r, w, h)
    ensures w in m.current && m.current[w] == m.running[r].destination
  {
    var d := m.running[r].destination;
    assert Exact(m.dests[d], m.running, d) by { hide Exact; }
    hide AllExact;
    assert RunsAt(m.running, d, r);
    RunCounts(m.dests[d], m.running, d, r);
    hide Exact;
  }

  /** Whatever of the hash waits for the registration was accepted after number `n`. */
  ghost predicate Behind(m: Manager, w: nat, h: nat, n: nat) {
    forall e, y :: WaitsAt(m, e, y) && Carries(y, h) && m.dests[e].webhook == w && !m.dests[e].removed ==> n < y.number
  }

  /** While one runs, the others of its hash wait behind it. */
  lemma BehindRunning(c: Limits, m: Manager, r: nat, w: nat, h: nat)
    requires Valid(c, m) && RunsFor(m, r, w, h)
    ensures Behind(m, w, h, m.running[r].delivery.number) && m.running[r].delivery.number < m.accepted
  {
    var d, x := m.running[r].destination, m.running[r].delivery;
    LanedAt(c, m, d);
    CurrentRun(m, r, w, h);
    assert RunsAt(m.running, d, r);
    forall e, y | WaitsAt(m, e, y) && Carries(y, h) && m.dests[e].webhook == w && !m.dests[e].removed
      ensures x.number < y.number {
      if e == d {
        BehindIn(m.dests[d], m.running, d, r, h, m.accepted, y);
      } else {
        NotCurrent(c, m, e, y);
      }
    }
  }

  lemma BehindIn(dest: Destination, running: map<nat, Run>, d: nat, r: nat, h: nat, n: nat, y: Delivery)
    requires Laned(dest, running, d, n) && RunsAt(running, d, r) && Carries(running[r].delivery, h)
    requires WaitsIn(dest, y) && Carries(y, h)
    ensures running[r].delivery.number < y.number
  {
    var x := running[r].delivery;
    assert y !in dest.ready by {
      assert forall i :: 0 <= i < |dest.ready| ==> Apart(dest.ready[i], x);
    }
    if InLanes(dest.lanes, y) {
      var k :| k in dest.lanes && y in dest.lanes[k];
      assert LaneSorted(dest.lanes[k], k, n);
      var i :| 0 <= i < |dest.lanes[k]| && dest.lanes[k][i] == y;
      assert AheadOfLane(dest, x);
    }
  }

  /** A live destination that is not its registration's current one has nothing waiting. */
  lemma NotCurrent(c: Limits, m: Manager, e: nat, y: Delivery)
    requires Valid(c, m) && e in m.dests && !m.dests[e].removed
    requires m.dests[e].webhook in m.current && m.current[m.dests[e].webhook] != e
    ensures !WaitsIn(m.dests[e], y)
  {
    LanedAt(c, m, e);
    assert m.dests[e].ready == [] && m.dests[e].active == 0;
    hide Valid, Laned, Exact;
    IdleHoldsNothing(m.dests[e], m.running, e, m.accepted);
  }

  lemma StepBehind(c: Limits, m: Manager, a: Action, m': Manager, w: nat, h: nat, n: nat)
    requires Valid(c, m) && Step(c, m, a, m') && Behind(m, w, h, n) && n < m.accepted
    ensures Behind(m', w, h, n) && n < m'.accepted
  {
    StepFollows(c, m, a, m');
    hide Valid, Step, WaitsIn, NewAt;
    forall e, y | WaitsAt(m', e, y) && Carries(y, h) && m'.dests[e].webhook == w && !m'.dests[e].removed
      ensures n < y.number {
      assert WaitsAt(m, e, y) || y.number >= m.accepted;
    }
  }

  lemma {:induction false} BehindSince(
    c: Limits, ms: seq<Manager>, acts: seq<Action>, i: nat, j: nat, w: nat, h: nat, n: nat)
    requires IsRun(c, ms, acts) && i <= j < |ms| && Behind(ms[i], w, h, n) && n < ms[i].accepted
    ensures Behind(ms[j], w, h, n) && n < ms[j].accepted
    decreases j
  {
    hide Step, Behind, Valid;
    if i < j {
      BehindSince(c, ms, acts, i, j - 1, w, h, n);
      RunValid(c, ms, acts, j - 1);
      assert Step(c, ms[j - 1], acts[j - 1], ms[j]);
      StepBehind(c, ms[j - 1], acts[j - 1], ms[j], w, h, n);
    }
  }

  /** A run stays the same until it ends. */
  lemma {:induction false} RunPersists(c: Limits, ms: seq<Manager>, acts: seq<Action>, i: nat, j: nat, r: nat)
    requires IsRun(c, ms, acts) && i <= j < |ms| && r in ms[i].running
    ensures ms[i].starts <= ms[j].starts && r < ms[i].starts
    ensures r in ms[j].running ==> ms[j].running[r] == ms[i].running[r]
    ensures r !in ms[j].running ==> exists k :: i <= k < j && acts[k].End? && acts[k].r == r
    decreases j
  {
    hide Step, Valid;
    RunValid(c, ms, acts, i);
    RunNumbered(c, ms[i], r);
    if i < j {
      RunPersists(c, ms, acts, i, j - 1, r);
      RunValid(c, ms, acts, j - 1);
      assert Step(c, ms[j - 1], acts[j - 1], ms[j]);
      StepFollows(c, ms[j - 1], acts[j - 1], ms[j]);
      hide Came, DestsStay;
    }
  }

  lemma RunNumbered(c: Limits, m: Manager, r: nat)
    requires Valid(c, m) && r in m.running
    ensures r < m.starts
  {
  }

  /** A delivery that a step starts has just left the wait of the same destination, or was just accepted. */
  lemma StartedFrom(c: Limits, m: Manager, a: Action, m': Manager, s: nat)
    requires Valid(c, m) && Step(c, m, a, m') && StartsRun(m, m', s)
    ensures var y := m'.running[s]; WaitsAt(m, y.destination, y.delivery) || y.delivery.number >= m.accepted
  {
    StepFollows(c, m, a, m');
    assert forall r :: r in m.running ==> r < m.starts;
    hide Valid, Step, WaitsAt;
    var y := m'.running[s];
    assert NewAt(m', m.starts, y.destination, y.delivery);
    assert !NewAt(m, m.starts, y.destination, y.delivery);
  }

  /** What has started from `from` on is for destinations that are there. */
  ghost predicate NewLive(m: Manager, from: nat) {
    forall r :: r in m.running && r >= from ==> Stays(m, m.running[r].destination)
  }

  lemma JoinLineLive(c: Limits, m: Manager, d: nat, from: nat)
    requires d in m.dests && NewLive(m, from)
    ensures NewLive(JoinLine(c, m, d), from)
  {
  }

  lemma PumpOnceLive(c: Limits, m: Manager, from: nat)
    requires Valid(c, m) && m.line != [] && NewLive(m, from)
    ensures m.line[0] in m.dests && NewLive(PumpOnce(c, m), from)
  {
    HeadKnown(c, m);
    var d := m.line[0];
    assert !m.dests[d].removed ==> m.dests[d].ready != [] by { assert d in m.line; }
    hide Valid, PumpOnce, JoinLine;
    PumpOnceIs(c, m);
    if !m.dests[d].removed {
      assert NewLive(Started(m, d), from);
      JoinLineLive(c, Started(m, d), d, from);
    }
  }

  lemma {:induction false} PumpLive(c: Limits, m: Manager, from: nat)
    requires Valid(c, m) && NewLive(m, from)
    ensures NewLive(Pump(c, m), from)
    decreases c.maxActive - |m.running|, |m.line|
  {
    hide Valid, NewLive, PumpOnce;
    if |m.running| < c.maxActive && m.line != [] && m.line[0] in m.dests && m.starts !in m.running {
      PumpOnceValid(c, m);
      PumpOnceProgress(c, m);
      PumpOnceLive(c, m, from);
      PumpLive(c, PumpOnce(c, m), from);
    }
  }

  /** What a step starts is for a registration that is there. */
  lemma StepLive(c: Limits, m: Manager, a: Action, m': Manager)
    requires Valid(c, m) && Step(c, m, a, m')
    ensures NewLive(m', m.starts)
  {
    NoneNew(c, m);
    hide Valid, NewLive, Pump, DiscardAll, OfferAll, Finish, Follows;
    match a
    case Register(w) => SameRunning(m, m');
    case Unregister(w) =>
      DiscardAllFollows(m.(webhooks := m.webhooks - {w}, stopped := m.stopped), [w], 0);
      SameRunning(m, m');
    case Stop(ws) =>
      DiscardAllFollows(m.(webhooks := m.webhooks, stopped := true), ws, 0);
      SameRunning(m, m');
    case Clear(ws) =>
      DiscardAllFollows(m.(webhooks := {}, stopped := m.stopped), ws, 0);
      SameRunning(m, m');
    case Dispatch(ws, bytes, hash) =>
      if m.stopped {
        SameRunning(m, m');
      } else {
        var m1 := OfferAll(c, m, ws, bytes, hash);
        OfferAllValid(c, m, ws, bytes, hash);
        OfferAllAppends(c, m, ws, bytes, hash);
        NoneNew(c, m1);
        PumpLive(c, m1, m.starts);
      }
    case End(r, ending) =>
      var m1 := Finish(c, m, r, ending);
      FinishValid(c, m, r, ending);
      FinishLine(c, m, r, ending);
      NoneNew(c, m1);
      PumpLive(c, m1, m.starts);
  }

  lemma NoneNew(c: Limits, m: Manager)
    requires Valid(c, m)
    ensures NewLive(m, m.starts) && forall r :: r in m.running ==> r < m.starts
  {
  }

  lemma SameRunning(m: Manager, m': Manager)
    requires m'.running == m.running && forall r :: r in m.running ==> r < m.starts
    ensures NewLive(m', m.starts)
  {
  }

  /**
   * For one registration and payment hash, deliveries start in the order they
   * were accepted, and none starts before the one started earlier has ended,
   * retries included.
   */
  lemma HoldsInOrder(
    c: Limits, ms: seq<Manager>, acts: seq<Action>, i: nat, r: nat, j: nat, s: nat, w: nat, h: nat)
    requires IsRun(c, ms, acts) && i <= j < |acts| && r != s
    requires StartsRun(ms[i], ms[i + 1], r) && RunOf(ms[i + 1], r, w, h)
    requires StartsRun(ms[j], ms[j + 1], s) && RunOf(ms[j + 1], s, w, h)
    ensures i < j
    ensures ms[i + 1].running[r].delivery.number < ms[j + 1].running[s].delivery.number
    ensures Stays(ms[j + 1], ms[i + 1].running[r].destination) ==>
      exists k :: i < k <= j && acts[k].End? && acts[k].r == r
  {
    hide Step, Valid, Behind;
    RunValid(c, ms, acts, i + 1);
    RunValid(c, ms, acts, j);
    RunValid(c, ms, acts, j + 1);
    RunValid(c, ms, acts, i);
    assert Step(c, ms[i], acts[i], ms[i + 1]);
    assert Step(c, ms[j], acts[j], ms[j + 1]);
    StepLive(c, ms[i], acts[i], ms[i + 1]);
    StepLive(c, ms[j], acts[j], ms[j + 1]);
    if i == j {
      OneAtATime(c, ms[j + 1], r, s, w, h);
    }
    var x, y := ms[i + 1].running[r], ms[j + 1].running[s];
    BehindRunning(c, ms[i + 1], r, w, h);
    BehindSince(c, ms, acts, i + 1, j, w, h, x.delivery.number);
    StartedBehind(c, ms[j], acts[j], ms[j + 1], s, w, h, x.delivery.number);
    RunPersists(c, ms, acts, i + 1, j + 1, r);
    DestPersists(c, ms, acts, i + 1, j + 1, x.destination);
    if Stays(ms[j + 1], x.destination) && r in ms[j + 1].running {
      OneAtATime(c, ms[j + 1], r, s, w, h);
    }
  }

  lemma StartedBehind(c: Limits, m: Manager, a: Action, m': Manager, s: nat, w: nat, h: nat, n: nat)
    requires Valid(c, m) && Step(c, m, a, m') && StartsRun(m, m', s) && RunsFor(m', s, w, h)
    requires Behind(m, w, h, n) && n < m.accepted
    ensures n < m'.running[s].delivery.number
  {
    StartedFrom(c, m, a, m', s);
    StepFollows(c, m, a, m');
    hide Valid, Step, Came;
  }

  // ----- every destination gets its turn -----

  /** This step starts a delivery of destination `d`. */
  ghost predicate StartsOf(m: Manager, m': Manager, d: nat) {
    exists r :: StartsRun(m, m', r) && m'.running[r].destination == d
  }

  lemma {:induction false} PumpTurns(c: Limits, m: Manager, d: nat, p: nat, from: nat) returns (p': nat)
    requires Valid(c, m) && p < |m.line| && m.line[p] == d && d in m.dests && !m.dests[d].removed && from <= m.starts
    ensures var m' := Pump(c, m);
      || (exists r :: from <= r && r in m'.running && m'.running[r].destination == d)
      || (p' < |m'.line| && m'.line[p'] == d && p' + (m'.starts - m.starts) <= p && m.starts <= m'.starts)
    decreases c.maxActive - |m.running|, |m.line|
  {
    p' := p;
    if |m.running| < c.maxActive && m.line != [] && m.line[0] in m.dests && m.starts !in m.running {
      PumpOnceValid(c, m);
      PumpOnceProgress(c, m);
      PumpOnceFollows(c, m, from);
      var m1 := PumpOnce(c, m);
      hide Valid, PumpOnce, Came;
      PumpFollows(c, m1, m1.starts);
      if Starts(m, m1, d) {
        assert m.starts in Pump(c, m1).running && Pump(c, m1).running[m.starts] == m1.running[m.starts];
      } else {
        var q := TurnMovesUp(c, m, d, p);
        NotRemoved(c, m, d);
        p' := PumpTurns(c, m1, d, q, from);
      }
    }
  }

  lemma NotRemoved(c: Limits, m: Manager, d: nat)
    requires m.line != [] && m.line[0] in m.dests && d in m.dests
    ensures d in PumpOnce(c, m).dests && PumpOnce(c, m).dests[d].removed == m.dests[d].removed
  {
  }

  lemma {:induction false} OfferAllAppends(c: Limits, m: Manager, ws: seq<nat>, bytes: nat, hash: Option<nat>)
    ensures m.line <= OfferAll(c, m, ws, bytes, hash).line && OfferAll(c, m, ws, bytes, hash).starts == m.starts
    decreases |ws|
  {
    if ws != [] {
      OfferLine(c, m, ws[0], bytes, hash);
      hide Offer;
      OfferAllAppends(c, Offer(c, m, ws[0], bytes, hash), ws[1..], bytes, hash);
    }
  }

  lemma DispatchTurns(c: Limits, m: Manager, ws: seq<nat>, bytes: nat, hash: Option<nat>, d: nat, p: nat) returns (p': nat)
    requires Valid(c, m) && p < |m.line| && m.line[p] == d && d in m.dests
    requires Stays(Pump(c, OfferAll(c, m, ws, bytes, hash)), d)
    ensures var m' := Pump(c, OfferAll(c, m, ws, bytes, hash)); TurnsOr(m, m', d, p, p')
  {
    hide Valid, Pump, OfferAll, Came, RunsStay;
    var m1 := OfferAll(c, m, ws, bytes, hash);
    OfferAllValid(c, m, ws, bytes, hash);
    OfferAllAppends(c, m, ws, bytes, hash);
    OfferAllFollows(c, m, ws, bytes, hash, m.starts);
    PumpKeepsRemoved(c, m1, d);
    p' := PumpTurns(c, m1, d, p, m.starts);
    StartsWitness(m, Pump(c, m1), d);
  }

  lemma EndTurns(c: Limits, m: Manager, r: nat, ending: Ending, d: nat, p: nat) returns (p': nat)
    requires Valid(c, m) && p < |m.line| && m.line[p] == d && d in m.dests
    requires r in m.running && m.running[r].destination in m.dests && Stays(Pump(c, Finish(c, m, r, ending)), d)
    ensures var m' := Pump(c, Finish(c, m, r, ending)); TurnsOr(m, m', d, p, p')
  {
    hide Valid, Pump, Finish, Came, RunsStay;
    var m1 := Finish(c, m, r, ending);
    FinishValid(c, m, r, ending);
    FinishLine(c, m, r, ending);
    FinishFollows(c, m, r, ending, m.starts);
    PumpKeepsRemoved(c, m1, d);
    p' := PumpTurns(c, m1, d, p, m.starts);
    StartsWitness(m, Pump(c, m1), d);
  }

  /** Either the step starts a delivery of `d`, or `d` is now at `p'`, up by at least what was started. */
  ghost predicate TurnsOr(m: Manager, m': Manager, d: nat, p: nat, p': nat) {
    StartsOf(m, m', d) ||
    (p' < |m'.line| && m'.line[p'] == d && p' + (m'.starts - m.starts) <= p && m.starts <= m'.starts)
  }

  /** A step moves a destination up the line by the deliveries it starts, unless one of them is its own. */
  lemma StepTurns(c: Limits, m: Manager, a: Action, m': Manager, d: nat, p: nat) returns (p': nat)
    requires Valid(c, m) && Step(c, m, a, m') && p < |m.line| && m.line[p] == d && d in m.dests && Stays(m', d)
    ensures TurnsOr(m, m', d, p, p')
  {
    p' := p;
    hide Valid, Pump, OfferAll, Finish, DiscardAll, Follows, StartsOf;
    match a
    case Register(w) =>
    case Unregister(w) => DiscardAllFollows(m.(webhooks := m.webhooks - {w}, stopped := m.stopped), [w], 0);
    case Stop(ws) => DiscardAllFollows(m.(webhooks := m.webhooks, stopped := true), ws, 0);
    case Clear(ws) => DiscardAllFollows(m.(webhooks := {}, stopped := m.stopped), ws, 0);
    case Dispatch(ws, bytes, hash) =>
      if !m.stopped {
        p' := DispatchTurns(c, m, ws, bytes, hash, d, p);
      }
    case End(r, ending) => p' := EndTurns(c, m, r, ending, d, p);
  }

  lemma StartsWitness(m: Manager, m': Manager, d: nat)
    ensures (exists r :: m.starts <= r && r in m'.running && m'.running[r].destination == d) ==> StartsOf(m, m', d)
  {
    if r :| m.starts <= r && r in m'.running && m'.running[r].destination == d {
      assert StartsRun(m, m', r);
    }
  }

  lemma PumpKeepsRemoved(c: Limits, m: Manager, d: nat)
    requires Valid(c, m) && d in m.dests && Stays(Pump(c, m), d)
    ensures !m.dests[d].removed
  {
    PumpFollows(c, m, m.starts);
    hide Valid, Pump, Came, RunsStay;
  }

  lemma OfferLine(c: Limits, m: Manager, w: nat, bytes: nat, hash: Option<nat>)
    ensures m.line <= Offer(c, m, w, bytes, hash).line && Offer(c, m, w, bytes, hash).starts == m.starts
  {
    hide Filed, JoinLine;
    if !Overflows(c, m, w, bytes) {
      var d := TargetOf(m, w);
      var m1 := Counted(Ensured(m, w), d, bytes);
      JoinLineAppends(c, m1.(dests := m1.dests[d := Filed(m1.dests[d], Delivery(m.accepted, bytes, hash))]), d);
    }
  }

  lemma FinishLine(c: Limits, m: Manager, r: nat, ending: Ending)
    requires r in m.running && m.running[r].destination in m.dests
    ensures m.line <= Finish(c, m, r, ending).line && Finish(c, m, r, ending).starts == m.starts
  {
  }

  /**
   * A destination at place p in line starts a delivery within the next p + 1 that
   * start, unless it is removed.
   */
  lemma {:induction false} FairTurns(
    c: Limits, ms: seq<Manager>, acts: seq<Action>, i: nat, j: nat, d: nat, p: nat) returns (k: nat, p': nat)
    requires IsRun(c, ms, acts) && i <= j < |ms| && p < |ms[i].line| && ms[i].line[p] == d && Stays(ms[j], d)
    ensures (i <= k < j && StartsOf(ms[k], ms[k + 1], d)) ||
      (p' < |ms[j].line| && ms[j].line[p'] == d && ms[j].starts - ms[i].starts <= p - p')
    ensures ms[j].starts - ms[i].starts > p ==> i <= k < j && StartsOf(ms[k], ms[k + 1], d)
    decreases j
  {
    hide Step, Valid, StartsOf;
    k, p' := i, p;
    if i < j {
      RunValid(c, ms, acts, i);
      InLineKnown(c, ms[i], d);
      DestPersists(c, ms, acts, i, j - 1, d);
      RunValid(c, ms, acts, j - 1);
      assert Step(c, ms[j - 1], acts[j - 1], ms[j]);
      StepStays(c, ms[j - 1], acts[j - 1], ms[j], d);
      k, p' := FairTurns(c, ms, acts, i, j - 1, d, p);
      if !(i <= k < j - 1 && StartsOf(ms[k], ms[k + 1], d)) {
        p' := StepTurns(c, ms[j - 1], acts[j - 1], ms[j], d, p');
        k := j - 1;
      }
    }
  }

  lemma InLineKnown(c: Limits, m: Manager, d: nat)
    requires Valid(c, m) && d in m.line
    ensures d in m.dests
  {
  }

  lemma StepStays(c: Limits, m: Manager, a: Action, m': Manager, d: nat)
    requires Valid(c, m) && Step(c, m, a, m') && d in m.dests
    ensures d in m'.dests && m'.dests[d].webhook == m.dests[d].webhook && (m.dests[d].removed ==> m'.dests[d].removed)
  {
    StepFollows(c, m, a, m');
    hide Valid, Step, Came, RunsStay;
  }

  lemma {:induction false} DestPersists(c: Limits, ms: seq<Manager>, acts: seq<Action>, i: nat, j: nat, d: nat)
    requires IsRun(c, ms, acts) && i <= j < |ms| && d in ms[i].dests
    ensures d in ms[j].dests && ms[j].dests[d].webhook == ms[i].dests[d].webhook
    decreases j
  {
    hide Step, Valid;
    if i < j {
      DestPersists(c, ms, acts, i, j - 1, d);
      RunValid(c, ms, acts, j - 1);
      assert Step(c, ms[j - 1], acts[j - 1], ms[j]);
      StepStays(c, ms[j - 1], acts[j - 1], ms[j], d);
    }
  }
}
