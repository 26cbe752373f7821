/**
 * The webhook delivery scheduler of src/cli/webhooks.ts: per-destination ready
 * queues, per-payment-hash lanes, a round-robin line, two concurrency caps and
 * two byte caps. A delivery's end is a step of its own.
 */
module Webhooks {

  datatype Option<T> = None | Some(value: T)

  /** `number` is the order deliveries were accepted in. */
  datatype Delivery = Delivery(number: nat, bytes: nat, hash: Option<nat>)

  /** One registration's share of the delivery work. */
  datatype Destination = Destination(
    webhook: nat,
    ready: seq<Delivery>,
    lanes: map<nat, seq<Delivery>>,
    active: int,
    bytes: int,
    inLine: bool,
    removed: bool)

  datatype Run = Run(destination: nat, delivery: Delivery)

  datatype Limits = Limits(maxActive: nat, maxActivePerWebhook: nat, maxBytes: nat, maxBytesPerWebhook: nat)

  /**
   * The manager. Destinations are objects: `dests` holds every one made,
   * `current` the one each registration now has. Running deliveries are keyed
   * by the order they started in.
   */
  datatype Manager = Manager(
    webhooks: set<nat>,
    dests: map<nat, Destination>,
    current: map<nat, nat>,
    line: seq<nat>,
    running: map<nat, Run>,
    queued: int,
    queuedBytes: int,
    delivered: nat,
    failed: nat,
    overflowed: nat,
    discarded: nat,
    accepted: nat,
    starts: nat,
    made: nat,
    stopped: bool)

  // ----- sums -----

  ghost function Sum<K>(m: map<K, nat>): nat {
    if m == map[] then 0 else var k :| k in m; m[k] + Sum(m - {k})
  }

  lemma {:induction false} SumRemove<K>(m: map<K, nat>, k: K)
    requires k in m
    ensures Sum(m) == m[k] + Sum(m - {k})
  {
    var j :| j in m && Sum(m) == m[j] + Sum(m - {j});
    if j != k {
      SumRemove(m - {j}, k);
      SumRemove(m - {k}, j);
      assert (m - {j}) - {k} == (m - {k}) - {j};
    }
  }

  lemma SumUpdate<K>(m: map<K, nat>, k: K, v: nat)
    ensures Sum(m[k := v]) + (if k in m then m[k] else 0) == Sum(m) + v
  {
    SumRemove(m[k := v], k);
    assert m[k := v] - {k} == m - {k};
    if k in m { SumRemove(m, k); } else { assert m - {k} == m; }
  }

  /** What a delivery counts for: itself, or its bytes. */
  function Size(x: Delivery, count: bool): nat {
    if count then 1 else x.bytes
  }

  ghost function Weight(s: seq<Delivery>, count: bool): nat {
    if s == [] then 0 else Size(s[0], count) + Weight(s[1..], count)
  }

  lemma {:induction false} WeightAppend(s: seq<Delivery>, x: Delivery, count: bool)
    ensures Weight(s + [x], count) == Weight(s, count) + Size(x, count)
  {
    if s != [] {
      WeightAppend(s[1..], x, count);
      assert (s + [x])[1..] == s[1..] + [x];
    }
  }

  ghost function LaneSizes(lanes: map<nat, seq<Delivery>>, count: bool): map<nat, nat> {
    map h | h in lanes :: Weight(lanes[h], count)
  }

  ghost function LaneWeight(lanes: map<nat, seq<Delivery>>, count: bool): nat {
    Sum(LaneSizes(lanes, count))
  }

  lemma LaneUpdate(lanes: map<nat, seq<Delivery>>, h: nat, s: seq<Delivery>, count: bool)
    ensures LaneWeight(lanes[h := s], count) + (if h in lanes then Weight(lanes[h], count) else 0)
            == LaneWeight(lanes, count) + Weight(s, count)
  {
    assert LaneSizes(lanes[h := s], count) == LaneSizes(lanes, count)[h := Weight(s, count)];
    SumUpdate(LaneSizes(lanes, count), h, Weight(s, count));
  }

  lemma LaneRemove(lanes: map<nat, seq<Delivery>>, h: nat, count: bool)
    ensures LaneWeight(lanes - {h}, count) + (if h in lanes then Weight(lanes[h], count) else 0)
            == LaneWeight(lanes, count)
  {
    var sizes := LaneSizes(lanes, count);
    assert LaneSizes(lanes - {h}, count) == sizes - {h};
    if h in lanes { SumRemove(sizes, h); } else { assert sizes - {h} == sizes; }
  }

  /** The running deliveries of one destination. */
  ghost function RunSizes(running: map<nat, Run>, d: nat, count: bool): map<nat, nat> {
    map r | r in running && running[r].destination == d :: Size(running[r].delivery, count)
  }

  ghost function RunWeight(running: map<nat, Run>, d: nat, count: bool): nat {
    Sum(RunSizes(running, d, count))
  }

  lemma RunAdd(running: map<nat, Run>, r: nat, d: nat, x: Delivery, e: nat, count: bool)
    requires r !in running
    ensures RunWeight(running[r := Run(d, x)], e, count)
            == RunWeight(running, e, count) + (if e == d then Size(x, count) else 0)
  {
    var more := running[r := Run(d, x)];
    var sizes := RunSizes(running, e, count);
    if e == d {
      assert RunSizes(more, e, count) == sizes[r := Size(x, count)];
      SumUpdate(sizes, r, Size(x, count));
    } else {
      assert RunSizes(more, e, count) == sizes;
    }
  }

  lemma RunRemove(running: map<nat, Run>, r: nat, e: nat, count: bool)
    requires r in running
    ensures RunWeight(running - {r}, e, count) + (if e == running[r].destination then Size(running[r].delivery, count) else 0)
            == RunWeight(running, e, count)
  {
    var sizes := RunSizes(running, e, count);
    assert RunSizes(running - {r}, e, count) == sizes - {r};
    if e == running[r].destination { SumRemove(sizes, r); } else { assert sizes - {r} == sizes; }
  }

  // ----- the operations, up to the pump -----

  function JoinLine(c: Limits, m: Manager, d: nat): (m': Manager)
    requires d in m.dests
  {
    var dest := m.dests[d];
    if dest.inLine || dest.removed || dest.ready == [] || dest.active >= c.maxActivePerWebhook then m
    else m.(dests := m.dests[d := dest.(inLine := true)], line := m.line + [d])
  }

  predicate WaitsInLane(dest: Destination, x: Delivery) {
    x.hash.Some? && x.hash.value in dest.lanes
  }

  /** A hold delivery waits in its hash's lane behind an earlier one, or opens the lane. */
  function Filed(dest: Destination, x: Delivery): (dest': Destination) {
    if WaitsInLane(dest, x) then
      var h := x.hash.value;
      dest.(lanes := dest.lanes[h := dest.lanes[h] + [x]])
    else
      dest.(lanes := if x.hash.Some? then dest.lanes[x.hash.value := []] else dest.lanes, ready := dest.ready + [x])
  }

  function Enqueue(c: Limits, m: Manager, d: nat, x: Delivery): (m': Manager)
    requires d in m.dests
  {
    var m1 := m.(dests := m.dests[d := Filed(m.dests[d], x)]);
    if WaitsInLane(m.dests[d], x) then m1 else JoinLine(c, m1, d)
  }

  function NewDestination(w: nat): Destination {
    Destination(w, [], map[], 0, 0, false, false)
  }

  /** Bytes the registration holds now. */
  function HeldBytes(m: Manager, w: nat): int {
    if w in m.current && m.current[w] in m.dests then m.dests[m.current[w]].bytes else 0
  }

  /** The destination a registration's next delivery goes to. */
  function TargetOf(m: Manager, w: nat): (d: nat) {
    if w in m.current && m.current[w] in m.dests then m.current[w] else m.made
  }

  /** The registration's destination, made if it has none. */
  function Ensured(m: Manager, w: nat): (m': Manager) {
    if w in m.current && m.current[w] in m.dests then m
    else m.(current := m.current[w := m.made], dests := m.dests[m.made := NewDestination(w)], made := m.made + 1)
  }

  /** A delivery taken into account, before it is queued. */
  function Counted(m: Manager, d: nat, bytes: nat): (m': Manager)
    requires d in m.dests
  {
    m.(dests := m.dests[d := m.dests[d].(bytes := m.dests[d].bytes + bytes)],
       queuedBytes := m.queuedBytes + bytes, queued := m.queued + 1, accepted := m.accepted + 1)
  }

  predicate Overflows(c: Limits, m: Manager, w: nat, bytes: nat) {
    HeldBytes(m, w) + bytes > c.maxBytesPerWebhook || m.queuedBytes + bytes > c.maxBytes
  }

  /** One matching registration's part of dispatch(). */
  function Offer(c: Limits, m: Manager, w: nat, bytes: nat, hash: Option<nat>): (m': Manager) {
    if Overflows(c, m, w, bytes) then m.(overflowed := m.overflowed + 1)
    else
      var d := TargetOf(m, w);
      Enqueue(c, Counted(Ensured(m, w), d, bytes), d, Delivery(m.accepted, bytes, hash))
  }

  function Start(m: Manager, d: nat, x: Delivery): (m': Manager)
    requires d in m.dests
  {
    m.(running := m.running[m.starts := Run(d, x)], starts := m.starts + 1,
       dests := m.dests[d := m.dests[d].(active := m.dests[d].active + 1)],
       queued := m.queued - 1)
  }

  /** One turn of the pump. */
  function PumpOnce(c: Limits, m: Manager): (m': Manager)
    requires m.line != [] && m.line[0] in m.dests
  {
    var d := m.line[0];
    var dest := m.dests[d];
    var rest := if dest.ready == [] then [] else dest.ready[1..];
    var m1 := m.(line := m.line[1..], dests := m.dests[d := dest.(inLine := false, ready := rest)]);
    if dest.removed || dest.ready == [] then m1 else JoinLine(c, Start(m1, d, dest.ready[0]), d)
  }

  datatype Ending = Delivered | GaveUp | Dropped

  /** Where a hold delivery's end leaves its lane: the next one becomes ready. */
  function Unblocked(dest: Destination, hash: Option<nat>): (dest': Destination) {
    if hash.None? || dest.removed then dest
    else
      var h := hash.value;
      if h in dest.lanes && dest.lanes[h] != []
      then dest.(ready := dest.ready + [dest.lanes[h][0]], lanes := dest.lanes[h := dest.lanes[h][1..]])
      else dest.(lanes := dest.lanes - {h})
  }

  /** The destination of a delivery that ended, its worker and bytes given back. */
  function Ended(m: Manager, r: nat): (dest: Destination)
    requires r in m.running && m.running[r].destination in m.dests
  {
    var Run(d, x) := m.running[r];
    Unblocked(m.dests[d].(active := m.dests[d].active - 1, bytes := m.dests[d].bytes - x.bytes), x.hash)
  }

  /** An ended delivery counted, and its destination dropped from the map once idle. */
  function Released(m: Manager, r: nat, ending: Ending): (m': Manager)
    requires r in m.running && m.running[r].destination in m.dests
  {
    var Run(d, x) := m.running[r];
    var dest := Ended(m, r);
    var idle := dest.active == 0 && dest.ready == [] && dest.webhook in m.current && m.current[dest.webhook] == d;
    m.(running := m.running - {r}, queuedBytes := m.queuedBytes - x.bytes,
       dests := m.dests[d := dest],
       current := if idle then m.current - {dest.webhook} else m.current,
       delivered := m.delivered + (if ending == Delivered then 1 else 0),
       failed := m.failed + (if ending == GaveUp then 1 else 0),
       discarded := m.discarded + (if ending == Dropped then 1 else 0))
  }

  /** The continuation of start(), up to its pump. */
  function Finish(c: Limits, m: Manager, r: nat, ending: Ending): (m': Manager)
    requires r in m.running && m.running[r].destination in m.dests
  {
    JoinLine(c, Released(m, r, ending), m.running[r].destination)
  }

  /** What a destination has waiting, in deliveries or in bytes. */
  ghost function Waiting(dest: Destination, count: bool): nat {
    Weight(dest.ready, count) + LaneWeight(dest.lanes, count)
  }

  /** discard(): a registration's queued deliveries go; running ones keep their bytes. */
  ghost function Discard(m: Manager, d: nat): (m': Manager)
    requires d in m.dests
  {
    var dest := m.dests[d];
    m.(current := if dest.webhook in m.current && m.current[dest.webhook] == d then m.current - {dest.webhook} else m.current,
       dests := m.dests[d := dest.(removed := true, ready := [], lanes := map[],
                                   bytes := dest.bytes - Waiting(dest, false))],
       queuedBytes := m.queuedBytes - Waiting(dest, false), queued := m.queued - Waiting(dest, true),
       discarded := m.discarded + Waiting(dest, true))
  }

  // ----- what every step keeps -----

  /** A destination's own counters are the sums of what it holds. */
  ghost predicate Exact(dest: Destination, running: map<nat, Run>, d: nat) {
    && dest.bytes == Waiting(dest, false) + RunWeight(running, d, false)
    && dest.active == RunWeight(running, d, true)
    && (dest.removed ==> dest.ready == [] && dest.lanes == map[])
  }

  ghost predicate AllExact(dests: map<nat, Destination>, running: map<nat, Run>) {
    && (forall r :: r in running ==> running[r].destination in dests)
    && (forall d {:trigger Exact(dests[d], running, d)} :: d in dests ==> Exact(dests[d], running, d))
  }

  ghost function QueuedSizes(dests: map<nat, Destination>): map<nat, nat> {
    map d | d in dests :: Waiting(dests[d], true)
  }

  ghost function ByteSizes(dests: map<nat, Destination>, running: map<nat, Run>): map<nat, nat> {
    map d | d in dests :: Waiting(dests[d], false) + RunWeight(running, d, false)
  }

  /** The manager's counters are the sums over its destinations, and nothing is lost. */
  ghost predicate Accounted(m: Manager) {
    && m.queued == Sum(QueuedSizes(m.dests))
    && m.queuedBytes == Sum(ByteSizes(m.dests, m.running))
    && m.accepted == m.delivered + m.failed + m.discarded + m.queued + |m.running|
    && (forall r :: r in m.running ==> r < m.starts)
  }

  /** The line holds, once each, exactly the live destinations with a ready delivery and a free worker. */
  ghost predicate InLineExact(c: Limits, dests: map<nat, Destination>, line: seq<nat>) {
    && (forall i, j :: 0 <= i < j < |line| ==> line[i] != line[j])
    && (forall d :: d in line <==> d in dests && dests[d].inLine)
    && (forall d :: d in dests && !dests[d].removed ==>
          (dests[d].inLine <==> dests[d].ready != [] && dests[d].active < c.maxActivePerWebhook))
  }

  ghost predicate WithinCaps(c: Limits, m: Manager) {
    && |m.running| <= c.maxActive
    && m.queuedBytes <= c.maxBytes
    && (forall d :: d in m.dests ==>
          m.dests[d].active <= c.maxActivePerWebhook && m.dests[d].bytes <= c.maxBytesPerWebhook)
  }

  /** A live destination with anything to do is its registration's current one. */
  ghost predicate CurrentOk(m: Manager) {
    && (forall d :: d in m.dests ==> d < m.made)
    && (forall w :: w in m.current ==>
          m.current[w] in m.dests && m.dests[m.current[w]].webhook == w && !m.dests[m.current[w]].removed)
    && (forall d :: d in m.dests && !m.dests[d].removed && (m.dests[d].ready != [] || m.dests[d].active != 0) ==>
          m.dests[d].webhook in m.current && m.current[m.dests[d].webhook] == d)
  }

  ghost predicate Carries(x: Delivery, h: nat) {
    x.hash == Some(h)
  }

  ghost predicate ReadyHas(dest: Destination, h: nat) {
    exists i :: 0 <= i < |dest.ready| && Carries(dest.ready[i], h)
  }

  ghost predicate RunsHash(running: map<nat, Run>, d: nat, h: nat) {
    exists r :: RunsAt(running, d, r) && Carries(running[r].delivery, h)
  }

  /** Two positions that may not hold deliveries of one hash. */
  ghost predicate Apart(x: Delivery, y: Delivery) {
    x.hash.Some? ==> x.hash != y.hash
  }

  /** At most one delivery of a hash is ready or running. */
  ghost predicate OneHead(dest: Destination, running: map<nat, Run>, d: nat) {
    && (forall i, j :: 0 <= i < j < |dest.ready| ==> Apart(dest.ready[i], dest.ready[j]))
    && (forall r, q :: RunsAt(running, d, r) && RunsAt(running, d, q) && r != q ==>
          Apart(running[r].delivery, running[q].delivery))
    && (forall i, r :: 0 <= i < |dest.ready| && RunsAt(running, d, r) ==>
          Apart(dest.ready[i], running[r].delivery))
  }

  ghost predicate RunsAt(running: map<nat, Run>, d: nat, r: nat) {
    r in running && running[r].destination == d
  }

  /** A hash is a lane key exactly while one of its deliveries is ready or running. */
  ghost predicate LaneKeys(dest: Destination, running: map<nat, Run>, d: nat) {
    !dest.removed ==> forall h :: h in dest.lanes <==> ReadyHas(dest, h) || RunsHash(running, d, h)
  }

  /** `x` is ahead of everything waiting in its hash's lane. */
  ghost predicate AheadOfLane(dest: Destination, x: Delivery) {
    x.hash.Some? && x.hash.value in dest.lanes ==>
      forall i :: 0 <= i < |dest.lanes[x.hash.value]| ==> x.number < dest.lanes[x.hash.value][i].number
  }

  /** A lane holds later deliveries of its hash, in the order they were accepted. */
  ghost predicate LaneSorted(lane: seq<Delivery>, h: nat, accepted: nat) {
    && (forall i :: 0 <= i < |lane| ==> Carries(lane[i], h) && lane[i].number < accepted)
    && (forall i, j :: 0 <= i < j < |lane| ==> lane[i].number < lane[j].number)
  }

  ghost predicate LaneOrder(dest: Destination, running: map<nat, Run>, d: nat, accepted: nat) {
    && (forall h :: h in dest.lanes ==> LaneSorted(dest.lanes[h], h, accepted))
    && (forall i :: 0 <= i < |dest.ready| ==> AheadOfLane(dest, dest.ready[i]) && dest.ready[i].number < accepted)
    && (forall r :: RunsAt(running, d, r) ==>
          AheadOfLane(dest, running[r].delivery) && running[r].delivery.number < accepted)
  }

  ghost predicate Laned(dest: Destination, running: map<nat, Run>, d: nat, accepted: nat) {
    OneHead(dest, running, d) && LaneKeys(dest, running, d) && LaneOrder(dest, running, d, accepted)
  }

  ghost predicate AllLaned(m: Manager) {
    forall d {:trigger Laned(m.dests[d], m.running, d, m.accepted)} ::
      d in m.dests ==> Laned(m.dests[d], m.running, d, m.accepted)
  }

  ghost predicate Valid(c: Limits, m: Manager) {
    && AllExact(m.dests, m.running)
    && Accounted(m)
    && InLineExact(c, m.dests, m.line)
    && WithinCaps(c, m)
    && CurrentOk(m)
    && AllLaned(m)
  }

  // ----- changing one destination -----

  /** The running deliveries of every other destination stay as they are. */
  ghost predicate OthersRun(running: map<nat, Run>, running': map<nat, Run>, d: nat) {
    forall r :: (r in running && running[r].destination != d) || (r in running' && running'[r].destination != d) ==>
      r in running && r in running' && running[r] == running'[r]
  }

  lemma OthersRunWeight(running: map<nat, Run>, running': map<nat, Run>, d: nat, e: nat, count: bool)
    requires OthersRun(running, running', d) && e != d
    ensures RunWeight(running', e, count) == RunWeight(running, e, count)
  {
    assert RunSizes(running', e, count) == RunSizes(running, e, count);
  }

  lemma UpdateExact(dests: map<nat, Destination>, running: map<nat, Run>, running': map<nat, Run>, d: nat, dest: Destination)
    requires AllExact(dests, running) && OthersRun(running, running', d) && Exact(dest, running', d)
    ensures AllExact(dests[d := dest], running')
  {
    hide RunWeight, Waiting;
    var dests' := dests[d := dest];
    forall e | e in dests' ensures Exact(dests'[e], running', e) {
      if e != d {
        assert Exact(dests[e], running, e);
        OthersRunWeight(running, running', d, e, false);
        OthersRunWeight(running, running', d, e, true);
      }
    }
  }

  lemma UpdateQueued(dests: map<nat, Destination>, d: nat, dest: Destination)
    ensures Sum(QueuedSizes(dests[d := dest])) + (if d in dests then Waiting(dests[d], true) else 0)
            == Sum(QueuedSizes(dests)) + Waiting(dest, true)
  {
    hide Waiting, Sum;
    assert QueuedSizes(dests[d := dest]) == QueuedSizes(dests)[d := Waiting(dest, true)];
    SumUpdate(QueuedSizes(dests), d, Waiting(dest, true));
  }

  lemma UpdateBytes(dests: map<nat, Destination>, running: map<nat, Run>, running': map<nat, Run>, d: nat, dest: Destination)
    requires OthersRun(running, running', d)
    ensures Sum(ByteSizes(dests[d := dest], running'))
            + (if d in dests then Waiting(dests[d], false) + RunWeight(running, d, false) else 0)
            == Sum(ByteSizes(dests, running)) + Waiting(dest, false) + RunWeight(running', d, false)
  {
    hide RunWeight, Waiting, Sum, OthersRun;
    forall e | e in dests && e != d ensures RunWeight(running', e, false) == RunWeight(running, e, false) {
      OthersRunWeight(running, running', d, e, false);
    }
    var size := Waiting(dest, false) + RunWeight(running', d, false);
    assert ByteSizes(dests[d := dest], running') == ByteSizes(dests, running)[d := size];
    SumUpdate(ByteSizes(dests, running), d, size);
  }

  lemma OthersLaned(dest: Destination, running: map<nat, Run>, running': map<nat, Run>, d: nat, e: nat, n: nat, n': nat)
    requires OthersRun(running, running', d) && e != d && Laned(dest, running, e, n) && n <= n'
    ensures Laned(dest, running', e, n')
  {
    assert forall r :: RunsAt(running', e, r) <==> RunsAt(running, e, r);
    assert forall h :: RunsHash(running', e, h) <==> RunsHash(running, e, h) by {
      forall h ensures RunsHash(running', e, h) <==> RunsHash(running, e, h) {
        if RunsHash(running', e, h) {
          var r :| RunsAt(running', e, r) && Carries(running'[r].delivery, h);
          assert RunsAt(running, e, r);
        }
        if RunsHash(running, e, h) {
          var r :| RunsAt(running, e, r) && Carries(running[r].delivery, h);
          assert RunsAt(running', e, r);
        }
      }
    }
  }

  lemma UpdateLaned(m: Manager, m': Manager, d: nat)
    requires AllLaned(m) && OthersRun(m.running, m'.running, d) && m.accepted <= m'.accepted
    requires d in m'.dests && m'.dests == m.dests[d := m'.dests[d]]
    requires Laned(m'.dests[d], m'.running, d, m'.accepted)
    ensures AllLaned(m')
  {
    hide Laned, OthersRun;
    forall e | e in m'.dests ensures Laned(m'.dests[e], m'.running, e, m'.accepted) {
      if e != d {
        assert Laned(m.dests[e], m.running, e, m.accepted);
        OthersLaned(m.dests[e], m.running, m'.running, d, e, m.accepted, m'.accepted);
      }
    }
  }

  ghost function OldWaiting(m: Manager, d: nat, count: bool): nat {
    if d in m.dests then Waiting(m.dests[d], count) else 0
  }

  ghost function OldRunning(m: Manager, d: nat): nat {
    if d in m.dests then RunWeight(m.running, d, false) else 0
  }

  /** One destination replaced: the others keep their sums and lanes, and the totals move with it. */
  lemma Replace(m: Manager, m': Manager, d: nat)
    requires AllExact(m.dests, m.running) && AllLaned(m) && m.accepted <= m'.accepted
    requires OthersRun(m.running, m'.running, d) && d in m'.dests && m'.dests == m.dests[d := m'.dests[d]]
    requires Exact(m'.dests[d], m'.running, d) && Laned(m'.dests[d], m'.running, d, m'.accepted)
    ensures AllExact(m'.dests, m'.running) && AllLaned(m')
    ensures Sum(QueuedSizes(m'.dests)) + OldWaiting(m, d, true) == Sum(QueuedSizes(m.dests)) + Waiting(m'.dests[d], true)
    ensures Sum(ByteSizes(m'.dests, m'.running)) + OldWaiting(m, d, false) + OldRunning(m, d)
            == Sum(ByteSizes(m.dests, m.running)) + Waiting(m'.dests[d], false) + RunWeight(m'.running, d, false)
  {
    hide AllExact, Exact, AllLaned, Laned, OthersRun, Waiting, RunWeight, Sum;
    UpdateExact(m.dests, m.running, m'.running, d, m'.dests[d]);
    UpdateQueued(m.dests, d, m'.dests[d]);
    UpdateBytes(m.dests, m.running, m'.running, d, m'.dests[d]);
    UpdateLaned(m, m', d);
  }

  lemma ValidAt(m: Manager, d: nat)
    requires AllExact(m.dests, m.running) && AllLaned(m) && d in m.dests
    ensures Exact(m.dests[d], m.running, d) && Laned(m.dests[d], m.running, d, m.accepted)
  {
    hide Exact, Laned;
    assert Exact(m.dests[d], m.running, d);
    assert Laned(m.dests[d], m.running, d, m.accepted);
  }

  // ----- joining the line -----

  /** As InLineExact, but `d` may yet have to join. */
  ghost predicate InLineBut(c: Limits, dests: map<nat, Destination>, line: seq<nat>, d: nat) {
    && (forall i, j :: 0 <= i < j < |line| ==> line[i] != line[j])
    && (forall e :: e in line <==> e in dests && dests[e].inLine)
    && (forall e :: e in dests && !dests[e].removed ==>
          (dests[e].inLine ==> dests[e].ready != [] && dests[e].active < c.maxActivePerWebhook))
    && (forall e :: e in dests && !dests[e].removed && e != d ==>
          (dests[e].ready != [] && dests[e].active < c.maxActivePerWebhook ==> dests[e].inLine))
  }

  ghost predicate ValidBut(c: Limits, m: Manager, d: nat) {
    && AllExact(m.dests, m.running)
    && Accounted(m)
    && InLineBut(c, m.dests, m.line, d)
    && WithinCaps(c, m)
    && CurrentOk(m)
    && AllLaned(m)
  }

  lemma JoinLineExact(c: Limits, m: Manager, d: nat)
    requires d in m.dests && InLineBut(c, m.dests, m.line, d)
    ensures var m' := JoinLine(c, m, d); InLineExact(c, m'.dests, m'.line)
  {
    var m' := JoinLine(c, m, d);
    if m' != m {
      assert d !in m.line;
      assert forall e :: e in m'.line <==> e in m.line || e == d;
    }
  }

  lemma JoinLineSame(m: Manager, d: nat)
    requires d in m.dests && Exact(m.dests[d], m.running, d) && Laned(m.dests[d], m.running, d, m.accepted)
    ensures var dest := m.dests[d].(inLine := true);
            && Exact(dest, m.running, d) && Laned(dest, m.running, d, m.accepted)
            && Waiting(dest, true) == Waiting(m.dests[d], true) && Waiting(dest, false) == Waiting(m.dests[d], false)
  {
    var dest := m.dests[d].(inLine := true);
    assert forall h :: ReadyHas(dest, h) <==> ReadyHas(m.dests[d], h);
  }

  lemma JoinLineRest(c: Limits, m: Manager, d: nat)
    requires d in m.dests && WithinCaps(c, m) && CurrentOk(m)
    ensures WithinCaps(c, JoinLine(c, m, d)) && CurrentOk(JoinLine(c, m, d))
  {
  }

  lemma JoinLineSums(c: Limits, m: Manager, d: nat)
    requires d in m.dests && AllExact(m.dests, m.running) && AllLaned(m) && Accounted(m)
    ensures var m' := JoinLine(c, m, d); AllExact(m'.dests, m'.running) && AllLaned(m') && Accounted(m')
  {
    hide AllExact, Exact, AllLaned, Laned, RunWeight, Waiting, Sum, OthersRun;
    var m' := JoinLine(c, m, d);
    if m' != m {
      ValidAt(m, d);
      JoinLineSame(m, d);
      NoneRun(m.running, d);
      Replace(m, m', d);
    }
  }

  lemma JoinLineValid(c: Limits, m: Manager, d: nat)
    requires d in m.dests && ValidBut(c, m, d)
    ensures Valid(c, JoinLine(c, m, d))
  {
    hide AllExact, AllLaned, Accounted, WithinCaps, CurrentOk, InLineBut, InLineExact, JoinLine;
    JoinLineExact(c, m, d);
    JoinLineRest(c, m, d);
    JoinLineSums(c, m, d);
  }

  lemma NoneRun(running: map<nat, Run>, d: nat)
    ensures OthersRun(running, running, d)
  {
  }

  // ----- a new delivery -----

  lemma NothingHeld(running: map<nat, Run>, d: nat, w: nat, n: nat)
    requires forall r :: r in running ==> running[r].destination != d
    ensures RunWeight(running, d, true) == 0 && RunWeight(running, d, false) == 0
    ensures Waiting(NewDestination(w), true) == 0 && Waiting(NewDestination(w), false) == 0
    ensures Exact(NewDestination(w), running, d) && Laned(NewDestination(w), running, d, n)
  {
    assert RunSizes(running, d, true) == map[] && RunSizes(running, d, false) == map[];
    assert LaneSizes(map[], true) == map[] && LaneSizes(map[], false) == map[];
  }

  lemma EnsuredLine(c: Limits, m: Manager, w: nat)
    requires InLineExact(c, m.dests, m.line) && m.made !in m.dests
    ensures var m' := Ensured(m, w); InLineExact(c, m'.dests, m'.line)
  {
  }

  lemma EnsuredRest(c: Limits, m: Manager, w: nat)
    requires WithinCaps(c, m) && CurrentOk(m) && m.made !in m.dests
    ensures var m' := Ensured(m, w); WithinCaps(c, m') && CurrentOk(m')
  {
  }

  lemma EnsuredSums(m: Manager, w: nat)
    requires AllExact(m.dests, m.running) && AllLaned(m) && Accounted(m) && m.made !in m.dests
    ensures var m' := Ensured(m, w); AllExact(m'.dests, m'.running) && AllLaned(m') && Accounted(m')
  {
    hide Exact, AllLaned, Laned, RunWeight, Waiting, Sum, OthersRun;
    var m' := Ensured(m, w);
    if m' != m {
      NothingHeld(m.running, m.made, w, m.accepted);
      NoneRun(m.running, m.made);
      Replace(m, m', m.made);
    }
  }

  lemma EnsuredValid(c: Limits, m: Manager, w: nat)
    requires Valid(c, m) && m.made !in m.dests
    ensures Valid(c, Ensured(m, w))
  {
    hide AllExact, AllLaned, Accounted, WithinCaps, CurrentOk, InLineExact, Ensured;
    EnsuredLine(c, m, w);
    EnsuredRest(c, m, w);
    EnsuredSums(m, w);
  }

  lemma EnsuredTarget(m: Manager, w: nat)
    requires CurrentOk(m) && m.made !in m.dests
    ensures var d, m' := TargetOf(m, w), Ensured(m, w);
            && d in m'.dests && !m'.dests[d].removed && w in m'.current && m'.current[w] == d && m'.dests[d].webhook == w
            && m'.dests[d].bytes == HeldBytes(m, w)
            && m'.queuedBytes == m.queuedBytes && m'.accepted == m.accepted
  {
  }

  lemma FiledWaiting(dest: Destination, x: Delivery, count: bool)
    ensures Waiting(Filed(dest, x), count) == Waiting(dest, count) + Size(x, count)
  {
    hide Sum;
    if WaitsInLane(dest, x) {
      var h := x.hash.value;
      WeightAppend(dest.lanes[h], x, count);
      LaneUpdate(dest.lanes, h, dest.lanes[h] + [x], count);
    } else {
      WeightAppend(dest.ready, x, count);
      if x.hash.Some? { LaneUpdate(dest.lanes, x.hash.value, [], count); }
    }
  }

  lemma FiledInLaneOrder(dest: Destination, running: map<nat, Run>, d: nat, x: Delivery, n: nat)
    requires LaneOrder(dest, running, d, n) && x.number == n && WaitsInLane(dest, x)
    ensures LaneOrder(Filed(dest, x), running, d, n + 1)
  {
    var dest', h := Filed(dest, x), x.hash.value;
    forall k | k in dest'.lanes ensures LaneSorted(dest'.lanes[k], k, n + 1) {
      assert LaneSorted(dest.lanes[k], k, n);
    }
    hide LaneSorted;
    forall y | AheadOfLane(dest, y) && y.number < n ensures AheadOfLane(dest', y) {}
  }

  lemma FiledInLane(dest: Destination, running: map<nat, Run>, d: nat, x: Delivery, n: nat)
    requires Laned(dest, running, d, n) && x.number == n && WaitsInLane(dest, x)
    ensures Laned(Filed(dest, x), running, d, n + 1)
  {
    hide OneHead, LaneKeys, LaneOrder;
    FiledInLaneOrder(dest, running, d, x, n);
    FiledInLaneHeads(dest, running, d, x);
    FiledInLaneKeys(dest, running, d, x);
  }

  lemma FiledInLaneHeads(dest: Destination, running: map<nat, Run>, d: nat, x: Delivery)
    requires OneHead(dest, running, d) && WaitsInLane(dest, x)
    ensures OneHead(Filed(dest, x), running, d)
  {
    assert Filed(dest, x).ready == dest.ready;
  }

  lemma FiledInLaneKeys(dest: Destination, running: map<nat, Run>, d: nat, x: Delivery)
    requires LaneKeys(dest, running, d) && WaitsInLane(dest, x)
    ensures LaneKeys(Filed(dest, x), running, d)
  {
    var dest' := Filed(dest, x);
    assert forall k :: ReadyHas(dest', k) <==> ReadyHas(dest, k);
    hide RunsHash;
  }

  lemma FiledReadyHas(dest: Destination, x: Delivery, h: nat)
    requires !WaitsInLane(dest, x)
    ensures ReadyHas(Filed(dest, x), h) <==> ReadyHas(dest, h) || Carries(x, h)
  {
    var ready' := dest.ready + [x];
    if ReadyHas(dest, h) {
      var i :| 0 <= i < |dest.ready| && Carries(dest.ready[i], h);
      assert Carries(ready'[i], h);
    }
    if Carries(x, h) { assert Carries(ready'[|dest.ready|], h); }
  }

  lemma FiledReady(dest: Destination, running: map<nat, Run>, d: nat, x: Delivery, n: nat)
    requires Laned(dest, running, d, n) && x.number == n && !WaitsInLane(dest, x) && !dest.removed
    ensures Laned(Filed(dest, x), running, d, n + 1)
  {
    var dest' := Filed(dest, x);
    forall h ensures ReadyHas(dest', h) <==> ReadyHas(dest, h) || Carries(x, h) { FiledReadyHas(dest, x, h); }
    if x.hash.Some? {
      assert !ReadyHas(dest, x.hash.value) && !RunsHash(running, d, x.hash.value);
    }
    forall i | 0 <= i < |dest.ready| ensures Apart(dest.ready[i], x) {
      if x.hash.Some? && dest.ready[i].hash == x.hash { assert Carries(dest.ready[i], x.hash.value); }
    }
    forall r | RunsAt(running, d, r) ensures Apart(x, running[r].delivery) {
      assert x.hash.Some? ==> !Carries(running[r].delivery, x.hash.value);
    }
    forall k | k in dest'.lanes ensures LaneSorted(dest'.lanes[k], k, n + 1) {
      assert k in dest.lanes ==> LaneSorted(dest.lanes[k], k, n);
    }
    forall y | AheadOfLane(dest, y) ensures AheadOfLane(dest', y) {}
    assert AheadOfLane(dest', x);
  }

  /** A delivery accepted by destination `d`, counted and filed. */
  ghost function Taken(m: Manager, d: nat, x: Delivery): Manager
    requires d in m.dests
  {
    var m1 := Counted(m, d, x.bytes);
    m1.(dests := m1.dests[d := Filed(m1.dests[d], x)])
  }

  lemma TakenDest(m: Manager, d: nat, x: Delivery)
    requires d in m.dests && Exact(m.dests[d], m.running, d) && Laned(m.dests[d], m.running, d, m.accepted)
    requires x.number == m.accepted && !m.dests[d].removed
    ensures var dest, dest' := m.dests[d], Taken(m, d, x).dests[d];
            && Exact(dest', m.running, d) && Laned(dest', m.running, d, m.accepted + 1)
            && Waiting(dest', true) == Waiting(dest, true) + 1
            && Waiting(dest', false) == Waiting(dest, false) + x.bytes
  {
    hide Laned, RunWeight, Waiting, Filed;
    var dest := m.dests[d].(bytes := m.dests[d].bytes + x.bytes);
    BytesKeepLanes(m.dests[d], m.running, d, m.accepted, dest.bytes);
    FiledWaiting(dest, x, true);
    FiledWaiting(dest, x, false);
    FiledFrame(dest, x);
    if WaitsInLane(dest, x) { FiledInLane(dest, m.running, d, x, m.accepted); }
    else { FiledReady(dest, m.running, d, x, m.accepted); }
  }

  lemma FiledFrame(dest: Destination, x: Delivery)
    ensures var dest' := Filed(dest, x);
            && dest'.bytes == dest.bytes && dest'.active == dest.active
            && dest'.removed == dest.removed && dest'.inLine == dest.inLine && dest'.webhook == dest.webhook
  {
  }

  lemma BytesKeepLanes(dest: Destination, running: map<nat, Run>, d: nat, n: nat, bytes: int)
    requires Laned(dest, running, d, n)
    ensures Laned(dest.(bytes := bytes), running, d, n)
    ensures Waiting(dest.(bytes := bytes), true) == Waiting(dest, true)
    ensures Waiting(dest.(bytes := bytes), false) == Waiting(dest, false)
  {
    var dest' := dest.(bytes := bytes);
    assert forall h :: ReadyHas(dest', h) <==> ReadyHas(dest, h);
  }

  lemma TakenSums(m: Manager, d: nat, x: Delivery)
    requires AllExact(m.dests, m.running) && AllLaned(m) && Accounted(m)
    requires d in m.dests && x.number == m.accepted && !m.dests[d].removed
    ensures var m' := Taken(m, d, x); AllExact(m'.dests, m'.running) && AllLaned(m') && Accounted(m')
  {
    hide AllExact, Exact, AllLaned, Laned, RunWeight, Waiting, Sum, OthersRun, Filed;
    ValidAt(m, d);
    TakenDest(m, d, x);
    NoneRun(m.running, d);
    Replace(m, Taken(m, d, x), d);
  }

  lemma TakenRest(c: Limits, m: Manager, d: nat, x: Delivery)
    requires WithinCaps(c, m) && CurrentOk(m) && d in m.dests && !m.dests[d].removed
    requires m.dests[d].webhook in m.current && m.current[m.dests[d].webhook] == d
    requires m.dests[d].bytes + x.bytes <= c.maxBytesPerWebhook && m.queuedBytes + x.bytes <= c.maxBytes
    ensures WithinCaps(c, Taken(m, d, x)) && CurrentOk(Taken(m, d, x))
  {
  }

  lemma TakenLine(c: Limits, m: Manager, d: nat, x: Delivery)
    requires InLineExact(c, m.dests, m.line) && d in m.dests
    ensures var m' := Taken(m, d, x);
            && InLineBut(c, m'.dests, m'.line, d)
            && (WaitsInLane(m.dests[d], x) ==> InLineExact(c, m'.dests, m'.line))
  {
  }

  lemma TakenValid(c: Limits, m: Manager, d: nat, x: Delivery)
    requires Valid(c, m) && d in m.dests && x.number == m.accepted && !m.dests[d].removed
    requires m.dests[d].webhook in m.current && m.current[m.dests[d].webhook] == d
    requires m.dests[d].bytes + x.bytes <= c.maxBytesPerWebhook && m.queuedBytes + x.bytes <= c.maxBytes
    ensures Valid(c, Enqueue(c, Counted(m, d, x.bytes), d, x))
  {
    hide AllExact, AllLaned, Accounted, WithinCaps, CurrentOk, InLineExact, InLineBut, Filed, JoinLine;
    TakenSums(m, d, x);
    TakenRest(c, m, d, x);
    TakenLine(c, m, d, x);
    if !WaitsInLane(m.dests[d], x) { JoinLineValid(c, Taken(m, d, x), d); }
  }

  lemma OverflowValid(c: Limits, m: Manager)
    requires Valid(c, m)
    ensures Valid(c, m.(overflowed := m.overflowed + 1))
  {
    hide Exact, Laned, InLineExact;
    var m' := m.(overflowed := m.overflowed + 1);
    forall d | d in m'.dests ensures Laned(m'.dests[d], m'.running, d, m'.accepted) {
      assert Laned(m.dests[d], m.running, d, m.accepted);
    }
  }

  /** Offering an event to one registration keeps every invariant, accepted or refused. */
  lemma OfferValid(c: Limits, m: Manager, w: nat, bytes: nat, hash: Option<nat>)
    requires Valid(c, m) && m.made !in m.dests
    ensures Valid(c, Offer(c, m, w, bytes, hash))
  {
    if Overflows(c, m, w, bytes) {
      OverflowValid(c, m);
    } else {
      EnsuredTarget(m, w);
      hide AllExact, AllLaned, Accounted, WithinCaps, CurrentOk, InLineExact, Ensured, Enqueue, Counted;
      EnsuredValid(c, m, w);
      TakenValid(c, Ensured(m, w), TargetOf(m, w), Delivery(m.accepted, bytes, hash));
    }
  }

  // ----- the pump -----

  /** The destination at the head of the line, its first ready delivery taken and started. */
  ghost function Started(m: Manager, d: nat): Manager
    requires d in m.dests && m.dests[d].ready != []
  {
    var dest := m.dests[d];
    Start(m.(line := if m.line == [] then [] else m.line[1..],
             dests := m.dests[d := dest.(inLine := false, ready := dest.ready[1..])]), d, dest.ready[0])
  }

  lemma StartedRuns(m: Manager, d: nat)
    requires d in m.dests && m.dests[d].ready != [] && m.starts !in m.running
    ensures var m', x := Started(m, d), m.dests[d].ready[0];
            && OthersRun(m.running, m'.running, d)
            && RunWeight(m'.running, d, true) == RunWeight(m.running, d, true) + 1
            && RunWeight(m'.running, d, false) == RunWeight(m.running, d, false) + x.bytes
            && Waiting(m'.dests[d], true) + 1 == Waiting(m.dests[d], true)
            && Waiting(m'.dests[d], false) + x.bytes == Waiting(m.dests[d], false)
            && |m'.running| == |m.running| + 1
  {
    hide LaneWeight, RunWeight;
    var x := m.dests[d].ready[0];
    RunAdd(m.running, m.starts, d, x, d, true);
    RunAdd(m.running, m.starts, d, x, d, false);
  }

  lemma StartedHashes(m: Manager, d: nat, h: nat)
    requires d in m.dests && m.dests[d].ready != [] && m.starts !in m.running
    ensures var m' := Started(m, d);
            (ReadyHas(m'.dests[d], h) || RunsHash(m'.running, d, h)) <==> (ReadyHas(m.dests[d], h) || RunsHash(m.running, d, h))
  {
    var m', x := Started(m, d), m.dests[d].ready[0];
    if ReadyHas(m.dests[d], h) {
      var i :| 0 <= i < |m.dests[d].ready| && Carries(m.dests[d].ready[i], h);
      if i == 0 { assert RunsAt(m'.running, d, m.starts); } else { assert Carries(m'.dests[d].ready[i - 1], h); }
    }
    if RunsHash(m.running, d, h) {
      var r :| RunsAt(m.running, d, r) && Carries(m.running[r].delivery, h);
      assert RunsAt(m'.running, d, r);
    }
    if ReadyHas(m'.dests[d], h) {
      var i :| 0 <= i < |m'.dests[d].ready| && Carries(m'.dests[d].ready[i], h);
      assert Carries(m.dests[d].ready[i + 1], h);
    }
    if RunsHash(m'.running, d, h) {
      var r :| RunsAt(m'.running, d, r) && Carries(m'.running[r].delivery, h);
      if r == m.starts { assert Carries(m.dests[d].ready[0], h); } else { assert RunsAt(m.running, d, r); }
    }
  }

  lemma StartedLaned(m: Manager, d: nat)
    requires d in m.dests && m.dests[d].ready != [] && m.starts !in m.running
    requires Laned(m.dests[d], m.running, d, m.accepted)
    ensures var m' := Started(m, d); Laned(m'.dests[d], m'.running, d, m'.accepted)
  {
    var m', dest := Started(m, d), m.dests[d];
    var dest' := m'.dests[d];
    forall h ensures (ReadyHas(dest', h) || RunsHash(m'.running, d, h)) <==> (ReadyHas(dest, h) || RunsHash(m.running, d, h)) {
      StartedHashes(m, d, h);
    }
    hide ReadyHas, RunsHash, OneHead, LaneOrder;
    StartedHeads(m, d);
    StartedOrder(m, d);
  }

  lemma StartedHeads(m: Manager, d: nat)
    requires d in m.dests && m.dests[d].ready != [] && m.starts !in m.running && OneHead(m.dests[d], m.running, d)
    ensures var m' := Started(m, d); OneHead(m'.dests[d], m'.running, d)
  {
    var m', dest := Started(m, d), m.dests[d];
    assert forall i :: 0 <= i < |m'.dests[d].ready| ==> m'.dests[d].ready[i] == dest.ready[i + 1];
    assert forall r :: RunsAt(m'.running, d, r) ==> r == m.starts || (RunsAt(m.running, d, r) && m'.running[r] == m.running[r]);
    assert m'.running[m.starts].delivery == dest.ready[0];
  }

  lemma StartedOrder(m: Manager, d: nat)
    requires d in m.dests && m.dests[d].ready != [] && m.starts !in m.running && LaneOrder(m.dests[d], m.running, d, m.accepted)
    ensures var m' := Started(m, d); LaneOrder(m'.dests[d], m'.running, d, m'.accepted)
  {
    hide LaneSorted;
    var m', dest := Started(m, d), m.dests[d];
    assert forall i :: 0 <= i < |m'.dests[d].ready| ==> m'.dests[d].ready[i] == dest.ready[i + 1];
    assert forall r :: RunsAt(m'.running, d, r) ==> r == m.starts || (RunsAt(m.running, d, r) && m'.running[r] == m.running[r]);
    assert m'.running[m.starts].delivery == dest.ready[0];
    forall y | AheadOfLane(dest, y) ensures AheadOfLane(m'.dests[d], y) {}
  }

  lemma StartedSums(m: Manager, d: nat)
    requires AllExact(m.dests, m.running) && AllLaned(m) && Accounted(m) && d in m.dests && m.dests[d].ready != []
    ensures var m' := Started(m, d); AllExact(m'.dests, m'.running) && AllLaned(m') && Accounted(m')
  {
    hide AllExact, AllLaned, Laned, RunWeight, Waiting, Sum, OthersRun;
    var m' := Started(m, d);
    ValidAt(m, d);
    StartedRuns(m, d);
    StartedLaned(m, d);
    assert m'.dests == m.dests[d := m'.dests[d]];
    Replace(m, m', d);
  }

  lemma StartedRest(c: Limits, m: Manager)
    requires WithinCaps(c, m) && CurrentOk(m) && InLineExact(c, m.dests, m.line) && m.line != []
    requires |m.running| < c.maxActive && m.starts !in m.running
    requires m.line[0] in m.dests && !m.dests[m.line[0]].removed
    ensures m.dests[m.line[0]].ready != []
    ensures var m' := Started(m, m.line[0]);
            && WithinCaps(c, m') && CurrentOk(m') && InLineBut(c, m'.dests, m'.line, m.line[0])
  {
    assert m.line[0] in m.line;
    hide WithinCaps, CurrentOk, InLineBut, Started;
    StartedCaps(c, m);
    StartedCurrent(m);
    StartedLine(c, m);
  }

  lemma StartedCaps(c: Limits, m: Manager)
    requires WithinCaps(c, m) && m.line != [] && |m.running| < c.maxActive && m.starts !in m.running
    requires m.line[0] in m.dests && m.dests[m.line[0]].ready != [] && m.dests[m.line[0]].active < c.maxActivePerWebhook
    ensures WithinCaps(c, Started(m, m.line[0]))
  {
  }

  lemma StartedCurrent(m: Manager)
    requires CurrentOk(m) && m.line != []
    requires m.line[0] in m.dests && m.dests[m.line[0]].ready != []
    ensures CurrentOk(Started(m, m.line[0]))
  {
  }

  lemma StartedLine(c: Limits, m: Manager)
    requires InLineExact(c, m.dests, m.line) && m.line != []
    requires m.line[0] in m.dests && m.dests[m.line[0]].ready != []
    ensures var m' := Started(m, m.line[0]); InLineBut(c, m'.dests, m'.line, m.line[0])
  {
    var d := m.line[0];
    assert d in m.line;
    var m' := Started(m, d);
    assert forall e :: e in m'.line <==> e in m.line && e != d;
  }

  /** A destination removed while in line is passed over. */
  ghost function Skipped(m: Manager): Manager
    requires m.line != [] && m.line[0] in m.dests
  {
    m.(line := m.line[1..], dests := m.dests[m.line[0] := m.dests[m.line[0]].(inLine := false)])
  }

  lemma SkippedSums(m: Manager)
    requires AllExact(m.dests, m.running) && AllLaned(m) && Accounted(m) && m.line != [] && m.line[0] in m.dests
    ensures var m' := Skipped(m); AllExact(m'.dests, m'.running) && AllLaned(m') && Accounted(m')
  {
    hide AllExact, AllLaned, Laned, RunWeight, Waiting, Sum, OthersRun;
    var d, m' := m.line[0], Skipped(m);
    ValidAt(m, d);
    InLineFlag(m.dests[d], m.running, d, m.accepted, false);
    NoneRun(m.running, d);
    Replace(m, m', d);
  }

  lemma InLineFlag(dest: Destination, running: map<nat, Run>, d: nat, n: nat, flag: bool)
    requires Exact(dest, running, d) && Laned(dest, running, d, n)
    ensures var dest' := dest.(inLine := flag);
            && Exact(dest', running, d) && Laned(dest', running, d, n)
            && Waiting(dest', true) == Waiting(dest, true) && Waiting(dest', false) == Waiting(dest, false)
  {
    var dest' := dest.(inLine := flag);
    assert forall h :: ReadyHas(dest', h) <==> ReadyHas(dest, h);
  }

  lemma SkippedRest(c: Limits, m: Manager)
    requires WithinCaps(c, m) && CurrentOk(m) && InLineExact(c, m.dests, m.line) && m.line != []
    requires m.line[0] in m.dests && m.dests[m.line[0]].removed
    ensures var m' := Skipped(m); WithinCaps(c, m') && CurrentOk(m') && InLineExact(c, m'.dests, m'.line)
  {
    var d, m' := m.line[0], Skipped(m);
    assert forall e :: e in m'.line <==> e in m.line && e != d;
  }

  lemma HeadKnown(c: Limits, m: Manager)
    requires Valid(c, m) && m.line != []
    ensures m.line[0] in m.dests && m.starts !in m.running
    ensures m.dests[m.line[0]].removed ==> m.dests[m.line[0]].ready == []
  {
    hide AllLaned, Sum, WithinCaps, CurrentOk;
    assert m.line[0] in m.line;
    assert Exact(m.dests[m.line[0]], m.running, m.line[0]);
  }

  lemma PumpOnceIs(c: Limits, m: Manager)
    requires m.line != [] && m.line[0] in m.dests
    ensures m.dests[m.line[0]].removed && m.dests[m.line[0]].ready == [] ==> PumpOnce(c, m) == Skipped(m)
    ensures !m.dests[m.line[0]].removed && m.dests[m.line[0]].ready != [] ==>
              PumpOnce(c, m) == JoinLine(c, Started(m, m.line[0]), m.line[0])
  {
  }

  /** One turn of the pump starts the head's first delivery, unless the head was removed. */
  lemma PumpOnceShape(c: Limits, m: Manager)
    requires m.line != [] && m.line[0] in m.dests && m.starts !in m.running
    requires m.dests[m.line[0]].removed <==> m.dests[m.line[0]].ready == []
    ensures var m' := PumpOnce(c, m);
            if m.dests[m.line[0]].removed
            then m'.running == m.running && m'.line == m.line[1..] && m'.starts == m.starts
            else m'.starts == m.starts + 1 && |m'.running| == |m.running| + 1
                 && m'.running == m.running[m.starts := Run(m.line[0], m.dests[m.line[0]].ready[0])]
                 && (m'.line == m.line[1..] || m'.line == m.line[1..] + [m.line[0]])
  {
  }

  lemma PumpOnceValid(c: Limits, m: Manager)
    requires Valid(c, m) && m.line != [] && |m.running| < c.maxActive
    ensures m.line[0] in m.dests && Valid(c, PumpOnce(c, m)) && m.starts !in m.running
    ensures m.dests[m.line[0]].removed <==> m.dests[m.line[0]].ready == []
  {
    hide AllExact, AllLaned, Accounted, WithinCaps, CurrentOk, InLineExact, InLineBut, PumpOnce, JoinLine, Started;
    HeadKnown(c, m);
    var d := m.line[0];
    PumpOnceIs(c, m);
    if m.dests[d].removed {
      SkippedSums(m);
      SkippedRest(c, m);
    } else {
      StartedRest(c, m);
      StartedSums(m, d);
      StartedKeeps(m, d);
      JoinLineValid(c, Started(m, d), d);
    }
  }

  lemma StartedKeeps(m: Manager, d: nat)
    requires d in m.dests && m.dests[d].ready != []
    ensures d in Started(m, d).dests
  {
  }

  /** pump(): turns until the global cap is full or nobody is in line. */
  function Pump(c: Limits, m: Manager): (m': Manager)
    decreases c.maxActive - |m.running|, |m.line|
  {
    if |m.running| < c.maxActive && m.line != [] && m.line[0] in m.dests && m.starts !in m.running then
      PumpOnceProgress(c, m);
      Pump(c, PumpOnce(c, m))
    else m
  }

  lemma PumpOnceProgress(c: Limits, m: Manager)
    requires m.line != [] && m.line[0] in m.dests && m.starts !in m.running
    ensures var m' := PumpOnce(c, m);
            |m'.running| == |m.running| + 1 || (m'.running == m.running && |m'.line| < |m.line|)
  {
  }

  lemma {:induction false} PumpValid(c: Limits, m: Manager)
    requires Valid(c, m)
    ensures Valid(c, Pump(c, m))
    ensures |Pump(c, m).running| == c.maxActive || Pump(c, m).line == []
    decreases c.maxActive - |m.running|, |m.line|
  {
    hide AllExact, AllLaned, Accounted, CurrentOk, InLineExact, PumpOnce;
    if |m.running| < c.maxActive && m.line != [] {
      PumpOnceValid(c, m);
      PumpOnceProgress(c, m);
      PumpValid(c, PumpOnce(c, m));
    }
  }

  /**
   * After a pump: either the global cap is full, or no live destination
   * with a free worker of its own has a ready delivery.
   */
  lemma WorkConserving(c: Limits, m: Manager, d: nat)
    requires Valid(c, m)
    ensures var m' := Pump(c, m);
            || |m'.running| == c.maxActive
            || (d in m'.dests ==> m'.dests[d].removed || m'.dests[d].ready == [] || m'.dests[d].active >= c.maxActivePerWebhook)
  {
    hide AllExact, AllLaned, Accounted, CurrentOk, Pump;
    PumpValid(c, m);
  }

  // ----- a delivery ends -----

  lemma NoneRunning(running: map<nat, Run>, d: nat, r: nat)
    requires RunWeight(running, d, true) == 0
    ensures !RunsAt(running, d, r)
  {
    if RunsAt(running, d, r) { SumRemove(RunSizes(running, d, true), r); }
  }

  /** A destination with nothing ready and nothing running has no lanes and no bytes. */
  lemma IdleHoldsNothing(dest: Destination, running: map<nat, Run>, d: nat, n: nat)
    requires Exact(dest, running, d) && Laned(dest, running, d, n) && dest.active == 0 && dest.ready == []
    ensures dest.lanes == map[] && dest.bytes == 0
  {
    forall r ensures !RunsAt(running, d, r) { NoneRunning(running, d, r); }
    assert RunSizes(running, d, false) == map[];
    assert forall h :: h !in dest.lanes;
    assert LaneSizes(dest.lanes, false) == map[];
  }

  lemma UnblockedWaiting(dest: Destination, hash: Option<nat>, count: bool)
    requires hash.Some? && !dest.removed && hash.value in dest.lanes
    ensures Waiting(Unblocked(dest, hash), count) == Waiting(dest, count)
  {
    hide Sum;
    var h := hash.value;
    var lane := dest.lanes[h];
    if lane != [] {
      WeightAppend(dest.ready, lane[0], count);
      LaneUpdate(dest.lanes, h, lane[1..], count);
    } else {
      LaneRemove(dest.lanes, h, count);
    }
  }

  /** Ending a delivery with no hash, or of a removed destination, leaves the lanes alone. */
  lemma EndPlainLaned(dest: Destination, running: map<nat, Run>, d: nat, r: nat, n: nat)
    requires Laned(dest, running, d, n) && RunsAt(running, d, r)
    requires dest.removed || running[r].delivery.hash == None
    ensures Laned(dest, running - {r}, d, n)
  {
    var running' := running - {r};
    assert forall q :: RunsAt(running', d, q) ==> RunsAt(running, d, q) && running'[q] == running[q];
    if !dest.removed {
      forall h ensures RunsHash(running', d, h) <==> RunsHash(running, d, h) {
        if RunsHash(running, d, h) {
          var q :| RunsAt(running, d, q) && Carries(running[q].delivery, h);
          assert RunsAt(running', d, q);
        }
        if RunsHash(running', d, h) {
          var q :| RunsAt(running', d, q) && Carries(running'[q].delivery, h);
          assert RunsAt(running, d, q);
        }
      }
    }
  }

  /** The ended delivery was the only head of its hash. */
  lemma EndedWasHead(dest: Destination, running: map<nat, Run>, d: nat, r: nat, n: nat, h: nat)
    requires Laned(dest, running, d, n) && RunsAt(running, d, r) && Carries(running[r].delivery, h) && !dest.removed
    ensures h in dest.lanes && !ReadyHas(dest, h) && !RunsHash(running - {r}, d, h)
    ensures forall k :: k != h ==> (RunsHash(running - {r}, d, k) <==> RunsHash(running, d, k))
  {
    assert RunsHash(running, d, h);
    forall i | 0 <= i < |dest.ready| ensures !Carries(dest.ready[i], h) {
      assert Apart(dest.ready[i], running[r].delivery);
    }
    var running' := running - {r};
    forall q | RunsAt(running', d, q) ensures !Carries(running'[q].delivery, h) && RunsAt(running, d, q) {
      assert RunsAt(running, d, q) && Apart(running[r].delivery, running[q].delivery);
    }
    forall k | k != h ensures RunsHash(running', d, k) <==> RunsHash(running, d, k) {
      if RunsHash(running, d, k) {
        var q :| RunsAt(running, d, q) && Carries(running[q].delivery, k);
        assert RunsAt(running', d, q);
      }
      if RunsHash(running', d, k) {
        var q :| RunsAt(running', d, q) && Carries(running'[q].delivery, k);
        assert RunsAt(running, d, q);
      }
    }
  }

  /** The next delivery of the hash becomes its head. */
  lemma EndPromotes(dest: Destination, running: map<nat, Run>, d: nat, r: nat, n: nat)
    requires Laned(dest, running, d, n) && RunsAt(running, d, r) && !dest.removed
    requires var x := running[r].delivery; x.hash.Some? && x.hash.value in dest.lanes && dest.lanes[x.hash.value] != []
    ensures Laned(Unblocked(dest, running[r].delivery.hash), running - {r}, d, n)
  {
    var h := running[r].delivery.hash.value;
    var lane := dest.lanes[h];
    var dest', running' := Unblocked(dest, Some(h)), running - {r};
    EndedWasHead(dest, running, d, r, n, h);
    assert LaneSorted(lane, h, n);
    var next := lane[0];
    forall k ensures ReadyHas(dest', k) <==> ReadyHas(dest, k) || k == h { PromotedReady(dest, next, h, k); }
    hide ReadyHas, RunsHash;
    assert LaneKeys(dest', running', d);
    EndPromotesHeads(dest, running, d, r, h);
    EndPromotesOrder(dest, running, d, r, n, h);
  }

  lemma PromotedReady(dest: Destination, next: Delivery, h: nat, k: nat)
    requires Carries(next, h)
    ensures ReadyHas(dest.(ready := dest.ready + [next]), k) <==> ReadyHas(dest, k) || k == h
    ensures forall lanes :: ReadyHas(dest.(ready := dest.ready + [next], lanes := lanes), k)
                            <==> ReadyHas(dest.(ready := dest.ready + [next]), k)
  {
    var ready' := dest.ready + [next];
    if ReadyHas(dest, k) {
      var i :| 0 <= i < |dest.ready| && Carries(dest.ready[i], k);
      assert Carries(ready'[i], k);
    }
    assert Carries(ready'[|dest.ready|], h);
  }

  lemma EndPromotesHeads(dest: Destination, running: map<nat, Run>, d: nat, r: nat, h: nat)
    requires OneHead(dest, running, d) && RunsAt(running, d, r) && Carries(running[r].delivery, h)
    requires h in dest.lanes && dest.lanes[h] != [] && Carries(dest.lanes[h][0], h) && !dest.removed
    requires !ReadyHas(dest, h) && !RunsHash(running - {r}, d, h)
    ensures OneHead(Unblocked(dest, Some(h)), running - {r}, d)
  {
    var dest', running', next := Unblocked(dest, Some(h)), running - {r}, dest.lanes[h][0];
    assert forall q :: RunsAt(running', d, q) ==> RunsAt(running, d, q) && running'[q] == running[q];
    forall i | 0 <= i < |dest.ready| ensures Apart(dest.ready[i], next) {
      assert !Carries(dest.ready[i], h);
    }
    forall q | RunsAt(running', d, q) ensures Apart(next, running'[q].delivery) {
      assert !Carries(running'[q].delivery, h);
    }
  }

  lemma EndPromotesOrder(dest: Destination, running: map<nat, Run>, d: nat, r: nat, n: nat, h: nat)
    requires LaneOrder(dest, running, d, n) && RunsAt(running, d, r) && Carries(running[r].delivery, h)
    requires h in dest.lanes && dest.lanes[h] != [] && !dest.removed
    ensures LaneOrder(Unblocked(dest, Some(h)), running - {r}, d, n)
  {
    var dest', running', lane := Unblocked(dest, Some(h)), running - {r}, dest.lanes[h];
    assert LaneSorted(lane, h, n);
    assert forall q :: RunsAt(running', d, q) ==> RunsAt(running, d, q) && running'[q] == running[q];
    forall k | k in dest'.lanes ensures LaneSorted(dest'.lanes[k], k, n) {
      assert LaneSorted(dest.lanes[k], k, n);
    }
    forall y | AheadOfLane(dest, y) ensures AheadOfLane(dest', y) {}
    assert AheadOfLane(dest', lane[0]);
    hide LaneSorted, AheadOfLane;
  }

  /** The last delivery of its hash closes the lane. */
  lemma EndCloses(dest: Destination, running: map<nat, Run>, d: nat, r: nat, n: nat)
    requires Laned(dest, running, d, n) && RunsAt(running, d, r) && !dest.removed
    requires var x := running[r].delivery; x.hash.Some? && (x.hash.value in dest.lanes ==> dest.lanes[x.hash.value] == [])
    ensures Laned(Unblocked(dest, running[r].delivery.hash), running - {r}, d, n)
  {
    hide OneHead, LaneOrder, LaneKeys;
    var h := running[r].delivery.hash.value;
    EndClosesHeads(dest, running, d, r, h);
    EndClosesKeys(dest, running, d, r, n, h);
    EndClosesOrder(dest, running, d, r, n, h);
  }

  lemma EndClosesHeads(dest: Destination, running: map<nat, Run>, d: nat, r: nat, h: nat)
    requires OneHead(dest, running, d)
    ensures OneHead(dest.(lanes := dest.lanes - {h}), running - {r}, d)
  {
    var running' := running - {r};
    assert forall q :: RunsAt(running', d, q) ==> RunsAt(running, d, q) && running'[q] == running[q];
  }

  lemma EndClosesKeys(dest: Destination, running: map<nat, Run>, d: nat, r: nat, n: nat, h: nat)
    requires Laned(dest, running, d, n) && RunsAt(running, d, r) && !dest.removed && running[r].delivery.hash == Some(h)
    ensures LaneKeys(dest.(lanes := dest.lanes - {h}), running - {r}, d)
  {
    EndedWasHead(dest, running, d, r, n, h);
    var dest' := dest.(lanes := dest.lanes - {h});
    assert forall k :: ReadyHas(dest', k) <==> ReadyHas(dest, k);
    hide ReadyHas, RunsHash, LaneOrder, OneHead;
  }

  lemma EndClosesOrder(dest: Destination, running: map<nat, Run>, d: nat, r: nat, n: nat, h: nat)
    requires LaneOrder(dest, running, d, n)
    ensures LaneOrder(dest.(lanes := dest.lanes - {h}), running - {r}, d, n)
  {
    var dest', running' := dest.(lanes := dest.lanes - {h}), running - {r};
    assert forall q :: RunsAt(running', d, q) ==> RunsAt(running, d, q) && running'[q] == running[q];
    forall y | AheadOfLane(dest, y) ensures AheadOfLane(dest', y) {}
  }

  /** Lanes depend only on what is ready, laned and removed. */
  lemma LanedFrame(dest: Destination, dest': Destination, running: map<nat, Run>, d: nat, n: nat)
    requires Laned(dest, running, d, n)
    requires dest'.ready == dest.ready && dest'.lanes == dest.lanes && dest'.removed == dest.removed
    ensures Laned(dest', running, d, n)
    ensures Waiting(dest', true) == Waiting(dest, true) && Waiting(dest', false) == Waiting(dest, false)
  {
    assert forall h :: ReadyHas(dest', h) <==> ReadyHas(dest, h);
  }

  lemma EndedLaned(m: Manager, r: nat)
    requires r in m.running && m.running[r].destination in m.dests
    requires var d := m.running[r].destination; Laned(m.dests[d], m.running, d, m.accepted)
    ensures var d := m.running[r].destination; Laned(Ended(m, r), m.running - {r}, d, m.accepted)
    ensures var d := m.running[r].destination;
            Waiting(Ended(m, r), true) == Waiting(m.dests[d], true) && Waiting(Ended(m, r), false) == Waiting(m.dests[d], false)
  {
    hide Laned, Waiting;
    var Run(d, x) := m.running[r];
    var dest := m.dests[d].(active := m.dests[d].active - 1, bytes := m.dests[d].bytes - x.bytes);
    LanedFrame(m.dests[d], dest, m.running, d, m.accepted);
    if dest.removed || x.hash.None? {
      EndPlainLaned(dest, m.running, d, r, m.accepted);
    } else {
      EndedWasHead(dest, m.running, d, r, m.accepted, x.hash.value);
      UnblockedWaiting(dest, x.hash, true);
      UnblockedWaiting(dest, x.hash, false);
      if dest.lanes[x.hash.value] != [] { EndPromotes(dest, m.running, d, r, m.accepted); }
      else { EndCloses(dest, m.running, d, r, m.accepted); }
    }
  }

  lemma EndedExact(m: Manager, r: nat)
    requires r in m.running && m.running[r].destination in m.dests
    requires var d := m.running[r].destination;
             Exact(m.dests[d], m.running, d) && Laned(m.dests[d], m.running, d, m.accepted)
    ensures var d := m.running[r].destination; Exact(Ended(m, r), m.running - {r}, d)
    ensures OthersRun(m.running, m.running - {r}, m.running[r].destination)
  {
    hide Laned, Waiting, RunWeight;
    var d := m.running[r].destination;
    EndedLaned(m, r);
    RunRemove(m.running, r, d, true);
    RunRemove(m.running, r, d, false);
  }

  lemma ReleasedSums(m: Manager, r: nat, ending: Ending)
    requires AllExact(m.dests, m.running) && AllLaned(m) && Accounted(m) && r in m.running
    ensures m.running[r].destination in m.dests
    ensures var m' := Released(m, r, ending); AllExact(m'.dests, m'.running) && AllLaned(m') && Accounted(m')
  {
    hide AllExact, AllLaned, Laned, RunWeight, Waiting, Sum, OthersRun, Unblocked, Ended;
    RunKnown(m, r);
    var m', d := Released(m, r, ending), m.running[r].destination;
    ValidAt(m, d);
    EndedLaned(m, r);
    EndedExact(m, r);
    RunRemove(m.running, r, d, false);
    Replace(m, m', d);
    ReleasedCount(m.running, r);
    ReleasedTotals(m, r, ending);
  }

  lemma RunKnown(m: Manager, r: nat)
    requires AllExact(m.dests, m.running) && r in m.running
    ensures m.running[r].destination in m.dests
  {
  }

  lemma ReleasedCount(running: map<nat, Run>, r: nat)
    requires r in running
    ensures |running - {r}| + 1 == |running|
  {
    assert running == (running - {r})[r := running[r]];
  }

  /** Totals that move together leave the books balanced. */
  lemma ReleasedTotals(m: Manager, r: nat, ending: Ending)
    requires Accounted(m) && r in m.running && m.running[r].destination in m.dests
    requires |m.running - {r}| + 1 == |m.running|
    requires var m' := Released(m, r, ending);
             && Sum(QueuedSizes(m'.dests)) == Sum(QueuedSizes(m.dests))
             && Sum(ByteSizes(m'.dests, m'.running)) + m.running[r].delivery.bytes == Sum(ByteSizes(m.dests, m.running))
    ensures Accounted(Released(m, r, ending))
  {
    hide Sum, QueuedSizes, ByteSizes, Ended;
  }

  lemma EndedFrame(m: Manager, r: nat)
    requires r in m.running && m.running[r].destination in m.dests
    ensures var dest, dest' := m.dests[m.running[r].destination], Ended(m, r);
            && dest'.webhook == dest.webhook && dest'.removed == dest.removed && dest'.inLine == dest.inLine
            && dest'.active == dest.active - 1 && dest'.bytes == dest.bytes - m.running[r].delivery.bytes
            && (dest.ready != [] ==> dest'.ready != [])
            && (dest.removed ==> dest' .ready == dest.ready)
  {
  }

  lemma ReleasedCaps(c: Limits, m: Manager, r: nat, ending: Ending)
    requires WithinCaps(c, m) && r in m.running && m.running[r].destination in m.dests
    ensures WithinCaps(c, Released(m, r, ending))
  {
    hide Ended;
    EndedFrame(m, r);
    ReleasedCount(m.running, r);
  }

  lemma ReleasedCurrent(c: Limits, m: Manager, r: nat, ending: Ending)
    requires CurrentOk(m) && r in m.running && m.running[r].destination in m.dests
    requires m.dests[m.running[r].destination].active >= 1
    ensures CurrentOk(Released(m, r, ending))
  {
    hide Ended;
    EndedFrame(m, r);
  }

  lemma ReleasedLine(c: Limits, m: Manager, r: nat, ending: Ending)
    requires InLineExact(c, m.dests, m.line) && r in m.running && m.running[r].destination in m.dests
    ensures var m' := Released(m, r, ending); InLineBut(c, m'.dests, m'.line, m.running[r].destination)
  {
    hide Ended;
    EndedFrame(m, r);
  }

  lemma RunCounts(dest: Destination, running: map<nat, Run>, d: nat, r: nat)
    requires Exact(dest, running, d) && RunsAt(running, d, r)
    ensures dest.active >= 1
  {
    hide Waiting, Sum;
    SumRemove(RunSizes(running, d, true), r);
  }

  /** A delivery's end, whatever its outcome, keeps every invariant. */
  lemma FinishValid(c: Limits, m: Manager, r: nat, ending: Ending)
    requires Valid(c, m) && r in m.running
    ensures m.running[r].destination in m.dests && Valid(c, Finish(c, m, r, ending))
  {
    var d := m.running[r].destination;
    hide AllLaned, Accounted, WithinCaps, CurrentOk, InLineExact, InLineBut, Released, JoinLine, Exact;
    ReleasedSums(m, r, ending);
    assert Exact(m.dests[d], m.running, d);
    RunCounts(m.dests[d], m.running, d, r);
    ReleasedCaps(c, m, r, ending);
    ReleasedCurrent(c, m, r, ending);
    ReleasedLine(c, m, r, ending);
    ReleasedKeeps(m, r, ending);
    JoinLineValid(c, Released(m, r, ending), d);
  }

  lemma ReleasedKeeps(m: Manager, r: nat, ending: Ending)
    requires r in m.running && m.running[r].destination in m.dests
    ensures m.running[r].destination in Released(m, r, ending).dests
  {
  }

  // ----- a registration goes -----

  lemma DiscardDest(m: Manager, d: nat)
    requires d in m.dests && Exact(m.dests[d], m.running, d) && Laned(m.dests[d], m.running, d, m.accepted)
    ensures var dest := Discard(m, d).dests[d];
            Exact(dest, m.running, d) && Laned(dest, m.running, d, m.accepted)
            && Waiting(dest, true) == 0 && Waiting(dest, false) == 0
  {
    hide RunWeight;
    assert LaneSizes(map[], true) == map[] && LaneSizes(map[], false) == map[];
  }

  lemma DiscardSums(m: Manager, d: nat)
    requires AllExact(m.dests, m.running) && AllLaned(m) && Accounted(m) && d in m.dests
    ensures var m' := Discard(m, d); AllExact(m'.dests, m'.running) && AllLaned(m') && Accounted(m')
  {
    hide AllExact, Exact, AllLaned, Laned, RunWeight, Waiting, Sum, OthersRun;
    ValidAt(m, d);
    DiscardDest(m, d);
    NoneRun(m.running, d);
    Replace(m, Discard(m, d), d);
  }

  lemma DiscardCaps(c: Limits, m: Manager, d: nat)
    requires WithinCaps(c, m) && d in m.dests
    ensures WithinCaps(c, Discard(m, d))
  {
    hide Waiting;
  }

  lemma DiscardCurrent(m: Manager, d: nat)
    requires CurrentOk(m) && d in m.dests
    ensures CurrentOk(Discard(m, d))
  {
    hide Waiting;
  }

  lemma DiscardLine(c: Limits, m: Manager, d: nat)
    requires InLineExact(c, m.dests, m.line) && d in m.dests
    ensures var m' := Discard(m, d); InLineExact(c, m'.dests, m'.line)
  {
    hide Waiting;
  }

  lemma DiscardValid(c: Limits, m: Manager, d: nat)
    requires Valid(c, m) && d in m.dests
    ensures Valid(c, Discard(m, d))
  {
    hide AllExact, AllLaned, Accounted, WithinCaps, CurrentOk, InLineExact, Discard;
    DiscardSums(m, d);
    DiscardCaps(c, m, d);
    DiscardCurrent(m, d);
    DiscardLine(c, m, d);
  }

  // ----- whole runs -----

  ghost function OfferAll(c: Limits, m: Manager, ws: seq<nat>, bytes: nat, hash: Option<nat>): (m': Manager)
    decreases |ws|
  {
    if ws == [] then m else OfferAll(c, Offer(c, m, ws[0], bytes, hash), ws[1..], bytes, hash)
  }

  /** Discards the destinations of these registrations. */
  ghost function DiscardAll(m: Manager, ws: seq<nat>): (m': Manager)
    decreases |ws|
  {
    if ws == [] then m
    else DiscardAll(if ws[0] in m.current && m.current[ws[0]] in m.dests then Discard(m, m.current[ws[0]]) else m, ws[1..])
  }

  datatype Action =
    | Register(w: nat)
    | Unregister(w: nat)
    | Dispatch(ws: seq<nat>, bytes: nat, hash: Option<nat>)   // the matching registrations
    | End(r: nat, ending: Ending)
    | Stop(ws: seq<nat>)
    | Clear(ws: seq<nat>)

  lemma MadeNew(m: Manager)
    requires CurrentOk(m)
    ensures m.made !in m.dests
  {
  }

  lemma {:induction false} OfferAllValid(c: Limits, m: Manager, ws: seq<nat>, bytes: nat, hash: Option<nat>)
    requires Valid(c, m)
    ensures Valid(c, OfferAll(c, m, ws, bytes, hash))
    decreases |ws|
  {
    if ws != [] {
      MadeNew(m);
      hide Valid, Offer;
      OfferValid(c, m, ws[0], bytes, hash);
      OfferAllValid(c, Offer(c, m, ws[0], bytes, hash), ws[1..], bytes, hash);
    }
  }

  lemma {:induction false} DiscardAllValid(c: Limits, m: Manager, ws: seq<nat>)
    requires Valid(c, m)
    ensures Valid(c, DiscardAll(m, ws))
    decreases |ws|
  {
    hide Valid, Discard;
    if ws != [] {
      if ws[0] in m.current && m.current[ws[0]] in m.dests {
        DiscardValid(c, m, m.current[ws[0]]);
        DiscardAllValid(c, Discard(m, m.current[ws[0]]), ws[1..]);
      } else {
        DiscardAllValid(c, m, ws[1..]);
      }
    }
  }

  /** Registrations and the stop flag take no part in the delivery books. */
  lemma FlagsValid(c: Limits, m: Manager, webhooks: set<nat>, stopped: bool)
    requires Valid(c, m)
    ensures Valid(c, m.(webhooks := webhooks, stopped := stopped))
  {
    hide Exact, Laned, InLineExact;
    var m' := m.(webhooks := webhooks, stopped := stopped);
    forall d | d in m'.dests ensures Laned(m'.dests[d], m'.running, d, m'.accepted) {
      assert Laned(m.dests[d], m.running, d, m.accepted);
    }
  }

  ghost predicate Step(c: Limits, m: Manager, a: Action, m': Manager) {
    match a
    case Register(w) => m' == m.(webhooks := m.webhooks + {w}, stopped := m.stopped)
    case Unregister(w) => m' == DiscardAll(m.(webhooks := m.webhooks - {w}, stopped := m.stopped), [w])
    case Dispatch(ws, bytes, hash) =>
      m' == if m.stopped then m else Pump(c, OfferAll(c, m, ws, bytes, hash))
    case End(r, ending) =>
      && r in m.running && m.running[r].destination in m.dests
      && m' == Pump(c, Finish(c, m, r, ending))
    case Stop(ws) =>
      m.current.Keys == (set w | w in ws) && m' == DiscardAll(m.(webhooks := m.webhooks, stopped := true), ws)
    case Clear(ws) =>
      m.current.Keys == (set w | w in ws) && m' == DiscardAll(m.(webhooks := {}, stopped := m.stopped), ws)
  }

  /** Every step leads from a valid manager to a valid one. */
  lemma StepValid(c: Limits, m: Manager, a: Action, m': Manager)
    requires Valid(c, m) && Step(c, m, a, m')
    ensures Valid(c, m')
  {
    hide Valid, Offer, Finish, Discard, Pump;
    match a
    case Register(w) => FlagsValid(c, m, m.webhooks + {w}, m.stopped);
    case Unregister(w) =>
      FlagsValid(c, m, m.webhooks - {w}, m.stopped);
      DiscardAllValid(c, m.(webhooks := m.webhooks - {w}, stopped := m.stopped), [w]);
    case Dispatch(ws, bytes, hash) =>
      OfferAllValid(c, m, ws, bytes, hash);
      PumpValid(c, OfferAll(c, m, ws, bytes, hash));
    case End(r, ending) =>
      FinishValid(c, m, r, ending);
      PumpValid(c, Finish(c, m, r, ending));
    case Stop(ws) =>
      FlagsValid(c, m, m.webhooks, true);
      DiscardAllValid(c, m.(webhooks := m.webhooks, stopped := true), ws);
    case Clear(ws) =>
      FlagsValid(c, m, {}, m.stopped);
      DiscardAllValid(c, m.(webhooks := {}, stopped := m.stopped), ws);
  }

  function Idle(): (m: Manager) {
    Manager({}, map[], map[], [], map[], 0, 0, 0, 0, 0, 0, 0, 0, 0, false)
  }

  ghost predicate IsRun(c: Limits, ms: seq<Manager>, acts: seq<Action>) {
    && |ms| == |acts| + 1
    && ms[0] == Idle()
    && forall i :: 0 <= i < |acts| ==> Step(c, ms[i], acts[i], ms[i + 1])
  }

  lemma IdleValid(c: Limits)
    ensures Valid(c, Idle())
  {
    assert QueuedSizes(map[]) == map[] && ByteSizes(map[], map[]) == map[];
  }

  /** Every reachable manager keeps its books, caps, lanes and line. */
  lemma {:induction false} RunValid(c: Limits, ms: seq<Manager>, acts: seq<Action>, i: nat)
    requires IsRun(c, ms, acts) && i < |ms|
    ensures Valid(c, ms[i])
  {
    hide Valid, Step;
    if i == 0 {
      IdleValid(c);
    } else {
      RunValid(c, ms, acts, i - 1);
      assert Step(c, ms[i - 1], acts[i - 1], ms[i - 1 + 1]);
      StepValid(c, ms[i - 1], acts[i - 1], ms[i]);
    }
  }

  // ----- what the runs promise -----

  /** The sums behind the statistics, in every reachable state. */
  lemma BooksBalance(c: Limits, ms: seq<Manager>, acts: seq<Action>, i: nat)
    requires IsRun(c, ms, acts) && i < |ms|
    ensures var m := ms[i];
            && m.accepted == m.delivered + m.failed + m.discarded + m.queued + |m.running|
            && m.queued == Sum(QueuedSizes(m.dests)) && m.queuedBytes == Sum(ByteSizes(m.dests, m.running))
            && |m.running| <= c.maxActive && m.queuedBytes <= c.maxBytes
            && forall d :: d in m.dests ==>
                 m.dests[d].active <= c.maxActivePerWebhook && m.dests[d].bytes <= c.maxBytesPerWebhook
  {
    hide Sum, QueuedSizes, ByteSizes;
    RunValid(c, ms, acts, i);
  }

  /**
   * When a hold delivery starts, no other delivery of its hash is running for
   * that registration, and every other one it holds was accepted later and
   * waits in the lane.
   */
  lemma HoldsStartInOrder(c: Limits, m: Manager, h: nat)
    requires Valid(c, m) && m.line != [] && |m.running| < c.maxActive
    requires m.line[0] in m.dests && !m.dests[m.line[0]].removed
    requires m.dests[m.line[0]].ready != [] && Carries(m.dests[m.line[0]].ready[0], h)
    ensures var d, dest := m.line[0], m.dests[m.line[0]];
            && !RunsHash(m.running, d, h)
            && (forall i :: 0 < i < |dest.ready| ==> !Carries(dest.ready[i], h))
            && h in dest.lanes
            && (forall i :: 0 <= i < |dest.lanes[h]| ==>
                  Carries(dest.lanes[h][i], h) && dest.ready[0].number < dest.lanes[h][i].number)
            && (forall i, j :: 0 <= i < j < |dest.lanes[h]| ==> dest.lanes[h][i].number < dest.lanes[h][j].number)
            && (forall e :: e in m.dests && e != d && !m.dests[e].removed && m.dests[e].webhook == dest.webhook ==>
                  m.dests[e].ready == [] && m.dests[e].active == 0)
  {
    var d, dest := m.line[0], m.dests[m.line[0]];
    assert Laned(dest, m.running, d, m.accepted);
    forall i | 0 < i < |dest.ready| ensures !Carries(dest.ready[i], h) {
      assert Apart(dest.ready[0], dest.ready[i]);
    }
    forall r | RunsAt(m.running, d, r) ensures !Carries(m.running[r].delivery, h) {
      assert Apart(dest.ready[0], m.running[r].delivery);
    }
    assert ReadyHas(dest, h);
    assert LaneSorted(dest.lanes[h], h, m.accepted);
    assert AheadOfLane(dest, dest.ready[0]);
  }

  // ----- fairness -----

  /** This turn starts a delivery of `d`. */
  ghost predicate Starts(m: Manager, m': Manager, d: nat) {
    m'.starts == m.starts + 1 && m.starts in m'.running && m'.running[m.starts].destination == d
  }

  /** A turn of the pump moves a waiting destination up by one, and by no less than it starts. */
  lemma TurnMovesUp(c: Limits, m: Manager, d: nat, p: nat) returns (p': nat)
    requires Valid(c, m) && |m.running| < c.maxActive && p < |m.line| && m.line[p] == d && m.line[0] in m.dests
    requires !Starts(m, PumpOnce(c, m), d) && (d in m.dests ==> !m.dests[d].removed)
    ensures var m' := PumpOnce(c, m);
      p' + 1 == p && p' < |m'.line| && m'.line[p'] == d && p' + (m'.starts - m.starts) <= p && m'.starts >= m.starts
  {
    hide Valid, PumpOnce;
    PumpOnceValid(c, m);
    TurnShape(c, m);
    assert p > 0;
    p' := p - 1;
  }

  lemma TurnShape(c: Limits, m: Manager)
    requires Valid(c, m) && m.line != [] && m.line[0] in m.dests && m.starts !in m.running
    ensures var m' := PumpOnce(c, m);
      && m.line[1..] <= m'.line
      && (m'.starts == m.starts || (m'.starts == m.starts + 1 && Starts(m, m', m.line[0])))
      && (m'.starts == m.starts ==> m.dests[m.line[0]].removed)
  {
    HeadKnown(c, m);
    assert m.line[0] in m.line;
    assert m.dests[m.line[0]].removed <==> m.dests[m.line[0]].ready == [];
    hide Valid, PumpOnce;
    PumpOnceShape(c, m);
  }

  lemma JoinLineAppends(c: Limits, m: Manager, d: nat)
    requires d in m.dests
    ensures m.line <= JoinLine(c, m, d).line && JoinLine(c, m, d).starts == m.starts
  {
  }
}
