/**
 * The WebhookManager class of src/cli/webhooks.ts as it updates its fields,
 * each method proved against the operation it carries out.
 */
module WebhooksCode {
  import opened Webhooks

  /** Weight over a whole list, in either direction. */
  lemma {:induction false} WeightConcat(a: seq<Delivery>, b: seq<Delivery>, count: bool)
    ensures Weight(a + b, count) == Weight(a, count) + Weight(b, count)
  {
    if a == [] {
      assert a + b == b;
    } else {
      WeightConcat(a[1..], b, count);
      assert (a + b)[1..] == a[1..] + b;
    }
  }

  lemma {:induction false} WeightIsLength(s: seq<Delivery>)
    ensures Weight(s, true) == |s|
  {
    if s != [] { WeightIsLength(s[1..]); }
  }

  /** `[...lanes.values()].flat()`, in whatever order the map lists its lanes. */
  method Flatten(lanes: map<nat, seq<Delivery>>) returns (all: seq<Delivery>)
    ensures Weight(all, true) == LaneWeight(lanes, true)
    ensures Weight(all, false) == LaneWeight(lanes, false)
  {
    hide Sum;
    all := [];
    var rest := lanes;
    while rest != map[]
      invariant Weight(all, true) + LaneWeight(rest, true) == LaneWeight(lanes, true)
      invariant Weight(all, false) + LaneWeight(rest, false) == LaneWeight(lanes, false)
      decreases |rest|
    {
      var h :| h in rest;
      WeightConcat(all, rest[h], true);
      WeightConcat(all, rest[h], false);
      LaneRemove(rest, h, true);
      LaneRemove(rest, h, false);
      all := all + rest[h];
      assert rest == (rest - {h})[h := rest[h]];
      rest := rest - {h};
    }
    NoLanes(true);
    NoLanes(false);
  }

  lemma NoLanes(count: bool)
    ensures LaneWeight(map[], count) == 0
  {
    assert LaneSizes(map[], count) == map[];
  }

  /** The bytes of what is dropped, taken from two counters. */
  method Unload(dropped: seq<Delivery>, held: int, queued: int) returns (bytes: int, total: int)
    ensures bytes == held - Weight(dropped, false) && total == queued - Weight(dropped, false)
  {
    bytes, total := held, queued;
    for i := 0 to |dropped|
      invariant bytes == held - Weight(dropped[..i], false) && total == queued - Weight(dropped[..i], false)
    {
      assert dropped[..i + 1] == dropped[..i] + [dropped[i]];
      WeightAppend(dropped[..i], dropped[i], false);
      bytes, total := bytes - dropped[i].bytes, total - dropped[i].bytes;
    }
    assert dropped[..|dropped|] == dropped;
  }

  /** The next delivery of the ended one's payment hash becomes ready, or its lane closes. */
  method NextOfLane(dest: Destination, hash: Option<nat>) returns (dest': Destination)
    ensures dest' == Unblocked(dest, hash)
  {
    dest' := dest;
    if hash.Some? && !dest.removed {
      var h := hash.value;
      if h in dest.lanes && dest.lanes[h] != [] {
        dest' := dest.(ready := dest.ready + [dest.lanes[h][0]], lanes := dest.lanes[h := dest.lanes[h][1..]]);
      } else {
        dest' := dest.(lanes := dest.lanes - {h});
      }
    }
  }

  /**
   * One delivery's run. `current(a)` and `still(a)`: whether the registration is
   * live just before and just after the request of attempt `a`; `succeeds(a)`: how
   * that request ends. At most one retry, and none once the registration is gone.
   */
  method DeliverWithRetry(current: nat -> bool, succeeds: nat -> bool, still: nat -> bool)
    returns (ending: Ending, attempts: nat)
    ensures attempts <= 2
    ensures forall a: nat :: a < attempts ==> current(a) && (a + 1 < attempts ==> !succeeds(a) && still(a))
    ensures ending == Delivered <==> attempts > 0 && succeeds(attempts - 1)
    ensures ending == GaveUp <==> attempts == 2 && !succeeds(1) && still(1)
    ensures ending == Dropped ==>
      !current(attempts) || (attempts > 0 && !succeeds(attempts - 1) && !still(attempts - 1))
  {
    attempts := 0;
    while true
      invariant attempts <= 1
      invariant attempts == 1 ==> current(0) && !succeeds(0) && still(0)
      decreases 2 - attempts
    {
      if !current(attempts) { return Dropped, attempts; }
      if succeeds(attempts) { return Delivered, attempts + 1; }
      if !still(attempts) { return Dropped, attempts + 1; }
      if attempts == 1 { return GaveUp, 2; }
      attempts := attempts + 1;
    }
  }

  class WebhookManager {
    const c: Limits
    var m: Manager

    constructor (limits: Limits)
      ensures c == limits && m == Idle()
    {
      c := limits;
      m := Idle();
    }

    method JoinLine(d: nat)
      requires d in m.dests
      modifies this`m
      ensures m == Webhooks.JoinLine(c, old(m), d)
    {
      var dest := m.dests[d];
      if dest.inLine || dest.removed || dest.ready == [] || dest.active >= c.maxActivePerWebhook { return; }
      m := m.(dests := m.dests[d := dest.(inLine := true)]);
      m := m.(line := m.line + [d]);
    }

    method Enqueue(d: nat, x: Delivery)
      requires d in m.dests
      modifies this`m
      ensures m == Webhooks.Enqueue(c, old(m), d, x)
    {
      var dest := m.dests[d];
      if x.hash.Some? {
        var h := x.hash.value;
        if h in dest.lanes {
          m := m.(dests := m.dests[d := dest.(lanes := dest.lanes[h := dest.lanes[h] + [x]])]);
          return;
        }
        dest := dest.(lanes := dest.lanes[h := []]);
      }
      dest := dest.(ready := dest.ready + [x]);
      m := m.(dests := m.dests[d := dest]);
      JoinLine(d);
    }

    /** One registration's turn in dispatch(). */
    method Offer(w: nat, bytes: nat, hash: Option<nat>)
      modifies this`m
      ensures m == Webhooks.Offer(c, old(m), w, bytes, hash)
    {
      hide Webhooks.JoinLine, Filed;
      if HeldBytes(m, w) + bytes > c.maxBytesPerWebhook || m.queuedBytes + bytes > c.maxBytes {
        m := m.(overflowed := m.overflowed + 1);
        return;
      }
      var number := m.accepted;
      var d := TargetOf(m, w);
      if !(w in m.current && m.current[w] in m.dests) {
        m := m.(current := m.current[w := d], dests := m.dests[d := NewDestination(w)], made := m.made + 1);
      }
      assert m == Ensured(old(m), w);
      m := m.(dests := m.dests[d := m.dests[d].(bytes := m.dests[d].bytes + bytes)]);
      m := m.(queuedBytes := m.queuedBytes + bytes, queued := m.queued + 1, accepted := m.accepted + 1);
      assert m == Counted(Ensured(old(m), w), d, bytes);
      Enqueue(d, Delivery(number, bytes, hash));
    }

    /** `ws`: the registrations whose events match. */
    method Dispatch(ws: seq<nat>, bytes: nat, hash: Option<nat>)
      modifies this`m
      ensures m == if old(m).stopped then old(m) else Webhooks.Pump(c, OfferAll(c, old(m), ws, bytes, hash))
    {
      hide Webhooks.Offer, Webhooks.Pump;
      if m.stopped { return; }
      ghost var goal := OfferAll(c, m, ws, bytes, hash);
      for i := 0 to |ws|
        invariant goal == OfferAll(c, m, ws[i..], bytes, hash)
      {
        assert ws[i..][0] == ws[i] && ws[i..][1..] == ws[i + 1..];
        Offer(ws[i], bytes, hash);
      }
      Pump();
    }

    /** The loop that hands out workers. */
    method Pump()
      modifies this`m
      ensures m == Webhooks.Pump(c, old(m))
    {
      ghost var goal := Webhooks.Pump(c, m);
      while |m.running| < c.maxActive && m.line != [] && m.line[0] in m.dests && m.starts !in m.running
        invariant goal == Webhooks.Pump(c, m)
        decreases c.maxActive - |m.running|, |m.line|
      {
        hide Webhooks.JoinLine;
        PumpOnceProgress(c, m);
        Turn();
      }
    }

    method Turn()
      requires m.line != [] && m.line[0] in m.dests
      modifies this`m
      ensures m == PumpOnce(c, old(m))
    {
      hide Webhooks.JoinLine;
      var d := m.line[0];
      var dest := m.dests[d];
      m := m.(line := m.line[1..]);
      m := m.(dests := m.dests[d := dest.(inLine := false, ready := if dest.ready == [] then [] else dest.ready[1..])]);
      if dest.removed || dest.ready == [] { return; }
      m := m.(running := m.running[m.starts := Run(d, dest.ready[0])], starts := m.starts + 1);
      m := m.(dests := m.dests[d := m.dests[d].(active := m.dests[d].active + 1)], queued := m.queued - 1);
      JoinLine(d);
    }

    /** What follows a delivery's outcome. */
    method Complete(r: nat, ending: Ending)
      requires r in m.running && m.running[r].destination in m.dests
      modifies this`m
      ensures m == Webhooks.Pump(c, Finish(c, old(m), r, ending))
    {
      hide Webhooks.JoinLine, Webhooks.Pump;
      var d := m.running[r].destination;
      Release(r, ending);
      JoinLine(d);
      Pump();
    }

    method Release(r: nat, ending: Ending)
      requires r in m.running && m.running[r].destination in m.dests
      modifies this`m
      ensures m == Released(old(m), r, ending)
    {
      hide Unblocked;
      var d, x := m.running[r].destination, m.running[r].delivery;
      match ending {
        case Delivered => m := m.(delivered := m.delivered + 1);
        case GaveUp => m := m.(failed := m.failed + 1);
        case Dropped => m := m.(discarded := m.discarded + 1);
      }
      var dest := m.dests[d].(active := m.dests[d].active - 1, bytes := m.dests[d].bytes - x.bytes);
      m := m.(running := m.running - {r}, queuedBytes := m.queuedBytes - x.bytes);
      dest := NextOfLane(dest, x.hash);
      m := m.(dests := m.dests[d := dest]);
      if dest.active == 0 && dest.ready == [] && dest.webhook in m.current && m.current[dest.webhook] == d {
        m := m.(current := m.current - {dest.webhook});
      }
    }

    method Discard(d: nat)
      requires d in m.dests
      modifies this`m
      ensures m == Webhooks.Discard(old(m), d)
    {
      hide Sum, Weight, LaneWeight;
      var dest := m.dests[d];
      if dest.webhook in m.current && m.current[dest.webhook] == d {
        m := m.(current := m.current - {dest.webhook});
      }
      var laned := Flatten(dest.lanes);
      var dropped := dest.ready + laned;
      WeightConcat(dest.ready, laned, true);
      WeightConcat(dest.ready, laned, false);
      WeightIsLength(dropped);
      var bytes, total := Unload(dropped, dest.bytes, m.queuedBytes);
      m := m.(dests := m.dests[d := dest.(removed := true, ready := [], lanes := map[], bytes := bytes)]);
      m := m.(queuedBytes := total, queued := m.queued - |dropped|, discarded := m.discarded + |dropped|);
    }

    method Unregister(w: nat) returns (deleted: bool)
      modifies this`m
      ensures deleted <==> w in old(m).webhooks
      ensures m == DiscardAll(old(m).(webhooks := old(m).webhooks - {w}), [w])
    {
      hide Webhooks.Discard;
      deleted := w in m.webhooks;
      m := m.(webhooks := m.webhooks - {w});
      assert [w][1..] == [];
      if w in m.current && m.current[w] in m.dests { Discard(m.current[w]); }
    }

    /** `ws`: the registrations with a destination, as the map lists them. */
    method DiscardEach(ws: seq<nat>)
      modifies this`m
      ensures m == DiscardAll(old(m), ws)
    {
      hide Webhooks.Discard;
      ghost var goal := DiscardAll(m, ws);
      for i := 0 to |ws|
        invariant goal == DiscardAll(m, ws[i..])
      {
        assert ws[i..][0] == ws[i] && ws[i..][1..] == ws[i + 1..];
        if ws[i] in m.current && m.current[ws[i]] in m.dests { Discard(m.current[ws[i]]); }
      }
    }

    method Stop(ws: seq<nat>)
      modifies this`m
      ensures m == DiscardAll(old(m).(stopped := true), ws)
    {
      m := m.(stopped := true);
      DiscardEach(ws);
    }

    method Clear(ws: seq<nat>)
      modifies this`m
      ensures m == DiscardAll(old(m).(webhooks := {}), ws)
    {
      m := m.(webhooks := {});
      DiscardEach(ws);
    }
  }
}
