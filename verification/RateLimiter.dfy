/**
 * The daemon's token bucket limiter (src/cli/http-rate-limiter.ts): buckets in
 * recency order, pruned when idle for a window, the least recent dropped at the
 * client cap. Time and tokens are real numbers and the clock never runs backwards.
 *
 * The reference is a map that keeps every bucket for ever.
 */
module RateLimiter {

  /** A client address, normalized; addresses are only compared. */
  datatype Key = Key(address: nat)

  datatype Bucket = Bucket(tokens: real, lastRefill: real)

  datatype Config = Config(maxRequests: real, windowMs: real, maxClients: nat)

  ghost predicate ConfigOk(c: Config) {
    c.maxRequests >= 0.0 && c.windowMs > 0.0 && c.maxClients >= 1
  }

  // ----- one bucket -----

  function Fresh(c: Config, now: real): Bucket { Bucket(c.maxRequests, now) }

  function Refill(c: Config, b: Bucket, now: real): (r: Bucket)
    requires c.windowMs > 0.0
  {
    var elapsed := now - b.lastRefill;
    if elapsed > 0.0 then
      var full := b.tokens + elapsed / c.windowMs * c.maxRequests;
      Bucket(if full < c.maxRequests then full else c.maxRequests, now)
    else b
  }

  function Take(b: Bucket): (Bucket, bool) {
    if b.tokens >= 1.0 then (b.(tokens := b.tokens - 1.0), true) else (b, false)
  }

  ghost predicate BucketOk(c: Config, b: Bucket, now: real) {
    0.0 <= b.tokens <= c.maxRequests && b.lastRefill <= now
  }

  // ----- the reference: every bucket kept -----

  type Ledger = map<Key, Bucket>

  function BucketOf(c: Config, m: Ledger, key: Key, now: real): Bucket {
    if key in m then m[key] else Fresh(c, now)
  }

  function Asked(c: Config, m: Ledger, key: Key, now: real): (r: (Ledger, bool))
    requires c.windowMs > 0.0
  {
    var (b, ok) := Take(Refill(c, BucketOf(c, m, key, now), now));
    (m[key := b], ok)
  }

  ghost predicate LedgerOk(c: Config, m: Ledger, now: real) {
    forall key :: key in m ==> BucketOk(c, m[key], now)
  }

  // ----- the limiter -----

  /** `order` is the insertion order of the map: the first key is the one seen least recently. */
  datatype Limiter = Limiter(order: seq<Key>, buckets: map<Key, Bucket>)

  function Without(order: seq<Key>, key: Key): (r: seq<Key>)
    ensures forall k :: k in r <==> k in order && k != key
    ensures |r| <= |order|
  {
    if order == [] then [] else (if order[0] == key then [] else [order[0]]) + Without(order[1..], key)
  }

  /** A known key moves to the end; a new one may push out the first. */
  function Touch(c: Config, l: Limiter, key: Key, now: real): (r: Limiter) {
    if key in l.buckets then Limiter(Without(l.order, key) + [key], l.buckets)
    else
      var room := if |l.order| >= c.maxClients && l.order != [] then
                    Limiter(l.order[1..], l.buckets - {l.order[0]}) else l;
      Limiter(room.order + [key], room.buckets[key := Fresh(c, now)])
  }

  function IsAllowed(c: Config, l: Limiter, key: Key, now: real): (r: (Limiter, bool))
    requires c.windowMs > 0.0
  {
    var touched := Touch(c, l, key, now);
    var (b, ok) := Take(Refill(c, BucketOf(c, touched.buckets, key, now), now));
    (touched.(buckets := touched.buckets[key := b]), ok)
  }

  predicate Stale(c: Config, b: Bucket, now: real) { now - b.lastRefill >= c.windowMs }

  function Kept(c: Config, l: Limiter, order: seq<Key>, now: real): (r: seq<Key>) {
    if order == [] then []
    else
      (if order[0] in l.buckets && Stale(c, l.buckets[order[0]], now) then [] else [order[0]]) +
      Kept(c, l, order[1..], now)
  }

  lemma {:induction false} KeptMembers(c: Config, l: Limiter, order: seq<Key>, now: real)
    ensures forall k :: k in Kept(c, l, order, now) <==> k in order && !(k in l.buckets && Stale(c, l.buckets[k], now))
    ensures |Kept(c, l, order, now)| <= |order|
  {
    if order != [] {
      KeptMembers(c, l, order[1..], now);
    }
  }

  function Prune(c: Config, l: Limiter, now: real): (r: Limiter) {
    Limiter(Kept(c, l, l.order, now), map k | k in l.buckets && !Stale(c, l.buckets[k], now) :: l.buckets[k])
  }

  // ----- what the limiter keeps -----

  ghost predicate Distinct(order: seq<Key>) {
    forall i, j :: 0 <= i < j < |order| ==> order[i] != order[j]
  }

  ghost predicate ByRecency(order: seq<Key>, buckets: map<Key, Bucket>) {
    forall i, j :: 0 <= i < j < |order| && order[i] in buckets && order[j] in buckets ==>
      buckets[order[i]].lastRefill <= buckets[order[j]].lastRefill
  }

  ghost predicate Valid(c: Config, l: Limiter, now: real) {
    && Distinct(l.order) && (forall k :: k in l.order <==> k in l.buckets)
    && |l.order| <= c.maxClients
    && LedgerOk(c, l.buckets, now)
    && ByRecency(l.order, l.buckets)
  }

  lemma DistinctTail(order: seq<Key>)
    requires Distinct(order) && order != []
    ensures Distinct(order[1..]) && order[0] !in order[1..]
  {
  }

  lemma ConsDistinct(k: Key, rest: seq<Key>)
    requires Distinct(rest) && k !in rest
    ensures Distinct([k] + rest)
  {
  }

  lemma {:induction false} WithoutDistinct(order: seq<Key>, key: Key)
    requires Distinct(order)
    ensures Distinct(Without(order, key))
    ensures key in order ==> |Without(order, key)| == |order| - 1
    ensures key !in order ==> Without(order, key) == order
  {
    if order != [] {
      var rest := Without(order[1..], key);
      DistinctTail(order);
      hide Distinct;
      WithoutDistinct(order[1..], key);
      if order[0] != key {
        ConsDistinct(order[0], rest);
        assert key !in order ==> [order[0]] + order[1..] == order;
      }
    }
  }

  lemma {:induction false} WithoutSorted(order: seq<Key>, key: Key, buckets: map<Key, Bucket>)
    requires ByRecency(order, buckets)
    ensures ByRecency(Without(order, key), buckets)
  {
    if order != [] {
      WithoutSorted(order[1..], key, buckets);
      HeadFirst(order, Without(order[1..], key), buckets);
    }
  }

  lemma {:induction false} KeptSorted(c: Config, l: Limiter, order: seq<Key>, now: real)
    requires Distinct(order) && ByRecency(order, l.buckets)
    ensures Distinct(Kept(c, l, order, now)) && ByRecency(Kept(c, l, order, now), l.buckets)
  {
    if order != [] {
      KeptSorted(c, l, order[1..], now);
      KeptMembers(c, l, order[1..], now);
      assert order[0] !in order[1..];
      HeadFirst(order, Kept(c, l, order[1..], now), l.buckets);
    }
  }

  lemma HeadFirst(order: seq<Key>, rest: seq<Key>, buckets: map<Key, Bucket>)
    requires order != [] && ByRecency(order, buckets) && ByRecency(rest, buckets)
    requires forall k :: k in rest ==> k in order[1..]
    ensures ByRecency([order[0]] + rest, buckets)
  {
    forall j | 0 <= j < |rest| && order[0] in buckets && rest[j] in buckets
      ensures buckets[order[0]].lastRefill <= buckets[rest[j]].lastRefill {
      assert rest[j] in order[1..];
      var i :| 0 < i < |order| && order[i] == rest[j];
    }
  }

  lemma RefillOk(c: Config, b: Bucket, now: real)
    requires ConfigOk(c) && BucketOk(c, b, now)
    ensures BucketOk(c, Refill(c, b, now), now) && Refill(c, b, now).lastRefill == now
    ensures Refill(c, b, now).tokens >= b.tokens
  {
    var elapsed := now - b.lastRefill;
    if elapsed > 0.0 {
      RateNonNegative(c, elapsed);
    }
  }

  lemma RateNonNegative(c: Config, elapsed: real)
    requires ConfigOk(c) && elapsed >= 0.0
    ensures elapsed / c.windowMs * c.maxRequests >= 0.0
  {
    assert elapsed / c.windowMs >= 0.0;
  }

  /** A bucket idle for a window refills to the brim: it is the fresh bucket its key would get. */
  lemma StaleIsFresh(c: Config, b: Bucket, now: real)
    requires ConfigOk(c) && BucketOk(c, b, now) && Stale(c, b, now)
    ensures Refill(c, b, now) == Refill(c, Fresh(c, now), now) == Fresh(c, now)
  {
    var elapsed := now - b.lastRefill;
    AtLeastOne(elapsed, c.windowMs);
    AtLeastWhole(elapsed / c.windowMs, c.maxRequests);
  }

  lemma AtLeastOne(x: real, w: real)
    requires x >= w > 0.0
    ensures x / w >= 1.0
  {
    assert (x / w) * w == x;
  }

  lemma AtLeastWhole(f: real, m: real)
    requires f >= 1.0 && m >= 0.0
    ensures f * m >= m
  {
  }

  lemma LaterOk(c: Config, m: Ledger, before: real, now: real)
    requires LedgerOk(c, m, before) && before <= now
    ensures LedgerOk(c, m, now)
  {
  }

  lemma TakeOk(c: Config, b: Bucket, now: real)
    requires ConfigOk(c) && BucketOk(c, b, now)
    ensures BucketOk(c, Take(Refill(c, b, now)).0, now) && Take(Refill(c, b, now)).0.lastRefill == now
  {
    RefillOk(c, b, now);
  }

  /** The state between moving a key to the end and refilling its bucket. */
  ghost predicate Touched(c: Config, t: Limiter, key: Key, now: real) {
    && key in t.buckets && t.order != [] && t.order[|t.order| - 1] == key
    && Distinct(t.order) && (forall k :: k in t.order <==> k in t.buckets) && |t.order| <= c.maxClients
    && LedgerOk(c, t.buckets, now) && ByRecency(t.order[..|t.order| - 1], t.buckets)
  }

  lemma TouchKnown(c: Config, l: Limiter, key: Key, before: real, now: real)
    requires ConfigOk(c) && Valid(c, l, before) && before <= now && key in l.buckets
    ensures Touched(c, Touch(c, l, key, now), key, now)
  {
    var t := Touch(c, l, key, now);
    WithoutDistinct(l.order, key);
    WithoutSorted(l.order, key, l.buckets);
    LaterOk(c, l.buckets, before, now);
    hide ByRecency, LedgerOk;
    assert t.order[..|t.order| - 1] == Without(l.order, key);
  }

  lemma TouchNew(c: Config, l: Limiter, key: Key, before: real, now: real)
    requires ConfigOk(c) && Valid(c, l, before) && before <= now && key !in l.buckets
    ensures Touched(c, Touch(c, l, key, now), key, now)
  {
    LaterOk(c, l.buckets, before, now);
    if |l.order| >= c.maxClients && l.order != [] {
      DropFirst(c, l, now);
      AddLast(c, Limiter(l.order[1..], l.buckets - {l.order[0]}), key, now);
    } else {
      AddLast(c, l, key, now);
    }
  }

  lemma DropFirst(c: Config, l: Limiter, now: real)
    requires Valid(c, l, now) && l.order != []
    ensures Valid(c, Limiter(l.order[1..], l.buckets - {l.order[0]}), now)
  {
    DistinctTail(l.order);
    var rest := Limiter(l.order[1..], l.buckets - {l.order[0]});
    forall k ensures k in rest.order <==> k in rest.buckets {
      assert k in l.order <==> k == l.order[0] || k in rest.order;
    }
  }

  lemma AddLast(c: Config, l: Limiter, key: Key, now: real)
    requires ConfigOk(c) && Valid(c, l, now) && key !in l.buckets && |l.order| < c.maxClients
    ensures Touched(c, Limiter(l.order + [key], l.buckets[key := Fresh(c, now)]), key, now)
  {
    var t := Limiter(l.order + [key], l.buckets[key := Fresh(c, now)]);
    assert key !in l.order;
    LedgerSet(c, l.buckets, key, Fresh(c, now), now);
    AppendNew(l.order, key, l.buckets, t.buckets);
    hide Distinct, ByRecency, LedgerOk;
    assert t.order[..|t.order| - 1] == l.order;
  }

  lemma AppendNew(order: seq<Key>, key: Key, buckets: map<Key, Bucket>, buckets': map<Key, Bucket>)
    requires Distinct(order) && ByRecency(order, buckets) && key !in order
    requires forall k :: k in order && k in buckets' ==> k in buckets && buckets'[k] == buckets[k]
    ensures Distinct(order + [key]) && ByRecency(order, buckets')
  {
  }

  /** Asking keeps the cap, the recency order and the token bounds. */
  lemma IsAllowedKeeps(c: Config, l: Limiter, key: Key, before: real, now: real)
    requires ConfigOk(c) && Valid(c, l, before) && before <= now
    ensures Valid(c, IsAllowed(c, l, key, now).0, now)
  {
    if key in l.buckets {
      TouchKnown(c, l, key, before, now);
    } else {
      TouchNew(c, l, key, before, now);
    }
    hide Touch;
    var t := Touch(c, l, key, now);
    TakeOk(c, t.buckets[key], now);
    hide Take, Refill;
    var b := Take(Refill(c, t.buckets[key], now)).0;
    LedgerSet(c, t.buckets, key, b, now);
    NewestLast(c, t, key, t.buckets[key := b], now);
    hide ByRecency, Distinct, LedgerOk, BucketOk;
  }

  lemma LedgerSet(c: Config, m: Ledger, key: Key, b: Bucket, now: real)
    requires LedgerOk(c, m, now) && BucketOk(c, b, now)
    ensures LedgerOk(c, m[key := b], now)
  {
  }

  lemma NewestLast(c: Config, t: Limiter, key: Key, buckets: map<Key, Bucket>, now: real)
    requires t.order != [] && t.order[|t.order| - 1] == key && Distinct(t.order)
    requires ByRecency(t.order[..|t.order| - 1], t.buckets) && LedgerOk(c, t.buckets, now)
    requires key in buckets && buckets == t.buckets[key := buckets[key]] && buckets[key].lastRefill == now
    ensures ByRecency(t.order, buckets)
  {
    var n := |t.order| - 1;
    forall i, j | 0 <= i < j < |t.order| && t.order[i] in buckets && t.order[j] in buckets
      ensures buckets[t.order[i]].lastRefill <= buckets[t.order[j]].lastRefill {
      assert t.order[i] == t.order[..n][i] && t.order[i] != key;
      if j < n {
        assert t.order[j] == t.order[..n][j] && t.order[j] != key;
      }
    }
  }

  lemma PruneKeeps(c: Config, l: Limiter, before: real, now: real)
    requires Valid(c, l, before) && before <= now
    ensures Valid(c, Prune(c, l, now), now)
  {
    KeptSorted(c, l, l.order, now);
    KeptMembers(c, l, l.order, now);
    var r := Prune(c, l, now);
    forall i, j | 0 <= i < j < |r.order| && r.order[i] in r.buckets && r.order[j] in r.buckets
      ensures r.buckets[r.order[i]].lastRefill <= r.buckets[r.order[j]].lastRefill {
      assert r.order[i] in l.buckets && r.order[j] in l.buckets;
    }
  }

  /** At the cap, the bucket dropped is one no other has been idle longer than. */
  lemma DropsLeastRecent(c: Config, l: Limiter, key: Key, now: real, k: Key)
    requires ConfigOk(c) && Valid(c, l, now) && key !in l.buckets && |l.order| == c.maxClients && k in l.buckets
    ensures l.order[0] in l.buckets && l.buckets[l.order[0]].lastRefill <= l.buckets[k].lastRefill
    ensures k in IsAllowed(c, l, key, now).0.buckets <==> k != l.order[0]
  {
    assert l.order[0] in l.order;
    assert k in l.order;
    var i :| 0 <= i < |l.order| && l.order[i] == k;
  }

  // ----- one answer -----

  /** What a stretch of time earns a key. */
  function Earned(c: Config, t: real): real
    requires c.windowMs > 0.0
  {
    t / c.windowMs * c.maxRequests
  }

  lemma EarnedAdds(c: Config, a: real, b: real)
    requires c.windowMs > 0.0
    ensures Earned(c, a + b) == Earned(c, a) + Earned(c, b)
  {
    assert (a + b) / c.windowMs == a / c.windowMs + b / c.windowMs;
  }

  /** What a key has to spend at `now`: what it had left and what the time since earns, up to the maximum. */
  function Available(c: Config, l: Limiter, key: Key, now: real): real
    requires c.windowMs > 0.0
  {
    if key !in l.buckets then c.maxRequests else Spendable(c, l.buckets[key], now)
  }

  function Spendable(c: Config, b: Bucket, now: real): real
    requires c.windowMs > 0.0
  {
    var full := b.tokens + Earned(c, now - b.lastRefill);
    if full < c.maxRequests then full else c.maxRequests
  }

  lemma RefillIsSpendable(c: Config, b: Bucket, now: real)
    requires ConfigOk(c) && BucketOk(c, b, now)
    ensures Refill(c, b, now) == Bucket(Spendable(c, b, now), now)
  {
    if now == b.lastRefill {
      assert Earned(c, now - b.lastRefill) == 0.0;
    }
  }

  lemma TouchFinds(c: Config, l: Limiter, key: Key, now: real)
    ensures var t := Touch(c, l, key, now);
      && key in t.buckets && t.buckets[key] == (if key in l.buckets then l.buckets[key] else Fresh(c, now))
      && (forall k :: k in t.buckets && k != key ==> k in l.buckets && t.buckets[k] == l.buckets[k])
  {
  }

  /** A request is admitted exactly if its key has a whole token to spend, and then costs it one. */
  lemma AllowedIff(c: Config, l: Limiter, key: Key, before: real, now: real)
    requires ConfigOk(c) && Valid(c, l, before) && before <= now
    ensures var (l', ok) := IsAllowed(c, l, key, now);
      && (ok <==> Available(c, l, key, now) >= 1.0)
      && key in l'.buckets && l'.buckets[key] == Bucket(Available(c, l, key, now) - (if ok then 1.0 else 0.0), now)
      && (forall k :: k in l'.buckets && k != key ==> k in l.buckets && l'.buckets[k] == l.buckets[k])
  {
    hide Refill, Spendable, Touch, ByRecency, Distinct;
    TouchFinds(c, l, key, now);
    var b := if key in l.buckets then l.buckets[key] else Fresh(c, now);
    assert BucketOk(c, b, now);
    RefillIsSpendable(c, b, now);
    FreshIsFull(c, now);
  }

  lemma FreshIsFull(c: Config, now: real)
    requires ConfigOk(c)
    ensures Spendable(c, Fresh(c, now), now) == c.maxRequests
  {
    assert Earned(c, now - now) == 0.0;
  }

  // ----- the limiter refines the reference -----

  /** What the limiter has dropped would have refilled by now. */
  ghost predicate Refines(c: Config, l: Limiter, m: Ledger, now: real) {
    && (forall k :: k in l.buckets ==> k in m && m[k] == l.buckets[k])
    && (forall k :: k in m && k !in l.buckets ==> Stale(c, m[k], now))
  }

  /** Asking drops no bucket, or one that has refilled. */
  ghost predicate Unharmed(c: Config, l: Limiter, key: Key, now: real) {
    || key in l.buckets || |l.order| < c.maxClients
    || (l.order != [] && l.order[0] in l.buckets && Stale(c, l.buckets[l.order[0]], now))
  }

  lemma AskAgrees(c: Config, l: Limiter, m: Ledger, key: Key, before: real, now: real)
    requires ConfigOk(c) && Valid(c, l, before) && LedgerOk(c, m, before) && Refines(c, l, m, before)
    requires before <= now && Unharmed(c, l, key, now)
    ensures IsAllowed(c, l, key, now).1 == Asked(c, m, key, now).1
    ensures Refines(c, IsAllowed(c, l, key, now).0, Asked(c, m, key, now).0, now)
    ensures LedgerOk(c, Asked(c, m, key, now).0, now)
  {
    TakeOk(c, BucketOf(c, m, key, now), now);
    if key in m && key !in l.buckets {
      StaleIsFresh(c, m[key], now);
    }
  }

  lemma PruneAgrees(c: Config, l: Limiter, m: Ledger, before: real, now: real)
    requires Valid(c, l, before) && Refines(c, l, m, before) && before <= now
    ensures Refines(c, Prune(c, l, now), m, now)
  {
  }

  // ----- runs -----

  datatype Event = Ask(key: Key, at: real) | Sweep(at: real)

  ghost predicate Monotone(now: real, events: seq<Event>)
    decreases |events|
  {
    events == [] || (now <= events[0].at && Monotone(events[0].at, events[1..]))
  }

  ghost predicate Within(events: seq<Event>, end: real) {
    forall e :: e in events ==> e.at <= end
  }

  function Step(c: Config, l: Limiter, e: Event): (r: (Limiter, bool))
    requires c.windowMs > 0.0
  {
    match e
    case Ask(key, at) => IsAllowed(c, l, key, at)
    case Sweep(at) => (Prune(c, l, at), false)
  }

  function LedgerStep(c: Config, m: Ledger, e: Event): (r: (Ledger, bool))
    requires c.windowMs > 0.0
  {
    match e
    case Ask(key, at) => Asked(c, m, key, at)
    case Sweep(at) => (m, false)
  }

  function Answers(c: Config, l: Limiter, events: seq<Event>): (r: seq<bool>)
    requires c.windowMs > 0.0
    ensures |r| == |events|
    decreases |events|
  {
    if events == [] then [] else
      var (next, ok) := Step(c, l, events[0]);
      [ok] + Answers(c, next, events[1..])
  }

  function LedgerAnswers(c: Config, m: Ledger, events: seq<Event>): (r: seq<bool>)
    requires c.windowMs > 0.0
    ensures |r| == |events|
    decreases |events|
  {
    if events == [] then [] else
      var (next, ok) := LedgerStep(c, m, events[0]);
      [ok] + LedgerAnswers(c, next, events[1..])
  }

  ghost predicate Known(keys: set<Key>, events: seq<Event>) {
    forall e :: e in events && e.Ask? ==> e.key in keys
  }

  lemma {:induction false} RoomForKnown(order: seq<Key>, keys: set<Key>, key: Key)
    requires Distinct(order) && (forall k :: k in order ==> k in keys) && key in keys && key !in order
    ensures |order| < |keys|
  {
    if order != [] {
      assert order[0] !in order[1..];
      RoomForKnown(order[1..], keys - {order[0]}, key);
    }
  }

  /** The clients that asked within a window of `now`. */
  ghost function Crowd(c: Config, past: seq<Event>, now: real): set<Key> {
    set e | e in past && e.Ask? && now - e.at < c.windowMs :: e.key
  }

  /** Each time one asks, at most maxClients have asked within the window. There may be any number over time. */
  ghost predicate Spread(c: Config, past: seq<Event>, events: seq<Event>)
    decreases |events|
  {
    events == [] ||
    (var seen := past + [events[0]];
     (events[0].Ask? ==> |Crowd(c, seen, events[0].at)| <= c.maxClients) && Spread(c, seen, events[1..]))
  }

  /** Every bucket was last refilled when its client last asked. */
  ghost predicate Remembered(l: Limiter, past: seq<Event>) {
    forall k :: k in l.buckets ==> Ask(k, l.buckets[k].lastRefill) in past
  }

  /** When a bucket is dropped at the cap, its client has been idle for a window. */
  lemma DroppedIsStale(c: Config, l: Limiter, past: seq<Event>, key: Key, before: real, now: real)
    requires ConfigOk(c) && Valid(c, l, before) && before <= now && Remembered(l, past)
    requires |Crowd(c, past + [Ask(key, now)], now)| <= c.maxClients
    ensures Unharmed(c, l, key, now)
  {
    if key !in l.buckets && |l.order| >= c.maxClients {
      var seen := past + [Ask(key, now)];
      var crowd := Crowd(c, seen, now);
      assert l.order[0] in l.order;
      assert Ask(key, now) in seen && key in crowd && key !in l.order;
      if !Stale(c, l.buckets[l.order[0]], now) {
        forall k | k in l.order ensures k in crowd {
          var i :| 0 <= i < |l.order| && l.order[i] == k;
          assert l.buckets[l.order[0]].lastRefill <= l.buckets[k].lastRefill;
          assert Ask(k, l.buckets[k].lastRefill) in seen;
        }
        RoomForKnown(l.order, crowd, key);
      }
    }
  }

  /** Few clients in all are few in every window. */
  lemma {:induction false} FewAreSpread(c: Config, keys: set<Key>, past: seq<Event>, events: seq<Event>)
    requires Known(keys, past) && Known(keys, events) && |keys| <= c.maxClients
    ensures Spread(c, past, events)
    decreases |events|
  {
    if events != [] {
      var seen := past + [events[0]];
      assert events[0] in events;
      assert Known(keys, seen);
      CrowdWithin(c, keys, seen, events[0].at);
      FewAreSpread(c, keys, seen, events[1..]);
    }
  }

  lemma CrowdWithin(c: Config, keys: set<Key>, past: seq<Event>, now: real)
    requires Known(keys, past)
    ensures |Crowd(c, past, now)| <= |keys|
  {
    assert Crowd(c, past, now) <= keys;
    SubsetSize(Crowd(c, past, now), keys);
  }

  lemma {:induction false} SubsetSize(a: set<Key>, b: set<Key>)
    requires a <= b
    ensures |a| <= |b|
  {
    if a != {} {
      var x :| x in a;
      SubsetSize(a - {x}, b - {x});
    }
  }

  lemma StepRemembers(c: Config, l: Limiter, past: seq<Event>, e: Event, before: real)
    requires ConfigOk(c) && Valid(c, l, before) && before <= e.at && Remembered(l, past)
    ensures Remembered(Step(c, l, e).0, past + [e])
  {
    match e {
      case Ask(key, at) =>
        var t := Touch(c, l, key, at);
        LaterOk(c, l.buckets, before, at);
        TakeOk(c, BucketOf(c, t.buckets, key, at), at);
        var r := IsAllowed(c, l, key, at).0;
        forall k | k in r.buckets ensures Ask(k, r.buckets[k].lastRefill) in past + [e] {
          if k != key {
            assert k in l.buckets && r.buckets[k] == l.buckets[k];
          }
        }
      case Sweep(at) =>
    }
  }

  /** One event keeps the limiter and the reference together, and draws the same answer from both. */
  lemma StepAgrees(c: Config, l: Limiter, m: Ledger, past: seq<Event>, e: Event, now: real)
    requires ConfigOk(c) && Valid(c, l, now) && LedgerOk(c, m, now) && Refines(c, l, m, now) && Remembered(l, past)
    requires now <= e.at && (e.Ask? ==> |Crowd(c, past + [e], e.at)| <= c.maxClients)
    ensures Step(c, l, e).1 == LedgerStep(c, m, e).1
    ensures var (l', m') := (Step(c, l, e).0, LedgerStep(c, m, e).0);
      Valid(c, l', e.at) && LedgerOk(c, m', e.at) && Refines(c, l', m', e.at) && Remembered(l', past + [e])
  {
    StepRemembers(c, l, past, e, now);
    match e {
      case Ask(key, at) =>
        DroppedIsStale(c, l, past, key, now, at);
        hide Crowd, Remembered;
        AskAgrees(c, l, m, key, now, at);
        IsAllowedKeeps(c, l, key, now, at);
        hide Valid, LedgerOk, Refines, IsAllowed, Asked;
      case Sweep(at) =>
        PruneAgrees(c, l, m, now, at);
        PruneKeeps(c, l, now, at);
        LaterOk(c, m, now, at);
    }
  }

  /** Pruning and dropping are never seen: the answers are those of a map that keeps every bucket. */
  lemma {:induction false} RunsAgree(
    c: Config, l: Limiter, m: Ledger, past: seq<Event>, events: seq<Event>, now: real)
    requires ConfigOk(c) && Valid(c, l, now) && LedgerOk(c, m, now) && Refines(c, l, m, now) && Remembered(l, past)
    requires Monotone(now, events) && Spread(c, past, events)
    ensures Answers(c, l, events) == LedgerAnswers(c, m, events)
    decreases |events|
  {
    hide Valid, LedgerOk, Refines, Remembered, Step, LedgerStep, Crowd;
    if events != [] {
      var e := events[0];
      StepAgrees(c, l, m, past, e, now);
      RunsAgree(c, Step(c, l, e).0, LedgerStep(c, m, e).0, past + [e], events[1..], e.at);
    }
  }

  /** The same from the start, for any run in which no window sees more than maxClients clients. */
  lemma LimiterAgrees(c: Config, events: seq<Event>)
    requires ConfigOk(c) && Monotone(0.0, events) && Spread(c, [], events)
    ensures Answers(c, Limiter([], map[]), events) == LedgerAnswers(c, map[], events)
  {
    RunsAgree(c, Limiter([], map[]), map[], [], events, 0.0);
  }

  /** With more, it may not: the client pushed out comes back to a full bucket. */
  lemma CrowdedDiffers(c: Config, a: Key, b: Key)
    requires ConfigOk(c) && c.maxClients == 1 && 1.0 <= c.maxRequests < 2.0 && a != b
    ensures var events := [Ask(a, 0.0), Ask(b, 0.0), Ask(a, 0.0)];
            && Answers(c, Limiter([], map[]), events) == [true, true, true]
            && LedgerAnswers(c, map[], events) == [true, true, false]
  {
    var e0, e1, e2 := Ask(a, 0.0), Ask(b, 0.0), Ask(a, 0.0);
    var l1 := Step(c, Limiter([], map[]), e0).0;
    var l2 := Step(c, l1, e1).0;
    var m1 := LedgerStep(c, map[], e0).0;
    var m2 := LedgerStep(c, m1, e1).0;
    assert l1.order == [a] && l2.order == [b];
    assert [e0, e1, e2][1..] == [e1, e2] && [e1, e2][1..] == [e2] && [e2][1..] == [];
    assert Answers(c, l2, [e2]) == [true] && LedgerAnswers(c, m2, [e2]) == [false];
    assert Answers(c, l1, [e1, e2]) == [true, true] && LedgerAnswers(c, m1, [e1, e2]) == [true, false];
  }

  // ----- what a client is sure to get -----

  function Asks(events: seq<Event>, key: Key): nat {
    if events == [] then 0
    else (if events[0].Ask? && events[0].key == key then 1 else 0) + Asks(events[1..], key)
  }

  lemma SpendableRises(c: Config, b: Bucket, before: real, now: real)
    requires ConfigOk(c) && before <= now
    ensures Spendable(c, b, before) <= Spendable(c, b, now)
  {
    EarnedAdds(c, before - b.lastRefill, now - before);
    assert (before - b.lastRefill) + (now - before) == now - b.lastRefill;
    RateNonNegative(c, now - before);
  }

  /** What a key has to spend does not shrink with time, nor when its bucket is dropped. */
  lemma AvailableRises(c: Config, l: Limiter, l': Limiter, key: Key, before: real, now: real)
    requires ConfigOk(c) && before <= now && (key in l'.buckets ==> key in l.buckets && l'.buckets[key] == l.buckets[key])
    ensures Available(c, l', key, now) >= Available(c, l, key, before)
  {
    if key in l'.buckets {
      SpendableRises(c, l.buckets[key], before, now);
    }
  }

  /** One event takes at most one token from a key, and only if the key asks. */
  lemma StepLeaves(c: Config, l: Limiter, e: Event, key: Key, now: real)
    requires ConfigOk(c) && Valid(c, l, now) && now <= e.at
    ensures Valid(c, Step(c, l, e).0, e.at)
    ensures Available(c, Step(c, l, e).0, key, e.at) >=
      Available(c, l, key, now) - (if e.Ask? && e.key == key then 1.0 else 0.0)
    ensures e.Ask? && e.key == key && Available(c, l, key, now) >= 1.0 ==> Step(c, l, e).1
  {
    hide IsAllowed, Valid, Spendable;
    match e {
      case Ask(k, at) =>
        IsAllowedKeeps(c, l, k, now, at);
        AllowedIff(c, l, k, now, at);
        var l' := IsAllowed(c, l, k, at).0;
        AvailableRises(c, l, l, key, now, at);
        if k != key {
          AvailableRises(c, l, l', key, now, at);
        } else {
          AtMostFull(c, l, key, at);
          JustRefilled(c, l'.buckets[key], at);
        }
      case Sweep(at) =>
        PruneKeeps(c, l, now, at);
        AvailableRises(c, l, Prune(c, l, at), key, now, at);
    }
  }

  lemma AtMostFull(c: Config, l: Limiter, key: Key, now: real)
    requires c.windowMs > 0.0
    ensures Available(c, l, key, now) <= c.maxRequests
  {
  }

  lemma JustRefilled(c: Config, b: Bucket, at: real)
    requires c.windowMs > 0.0 && b.lastRefill == at && b.tokens <= c.maxRequests
    ensures Spendable(c, b, at) == b.tokens
  {
    assert Earned(c, at - at) == 0.0;
  }

  /** While a key has asked no more often than it has whole tokens, each of its requests is admitted. */
  lemma {:induction false} BurstAdmitted(c: Config, l: Limiter, events: seq<Event>, key: Key, now: real, i: nat)
    requires ConfigOk(c) && Valid(c, l, now) && Monotone(now, events)
    requires i < |events| && events[i].Ask? && events[i].key == key
    requires Asks(events[..i], key) as real + 1.0 <= Available(c, l, key, now)
    ensures Answers(c, l, events)[i]
    decreases |events|
  {
    var e := events[0];
    StepLeaves(c, l, e, key, now);
    hide Step, Available, Valid;
    if i > 0 {
      assert events[..i][0] == e && events[..i][1..] == events[1..][..i - 1];
      BurstAdmitted(c, Step(c, l, e).0, events[1..], key, e.at, i - 1);
    }
  }

  lemma {:induction false} RunRemembers(c: Config, l: Limiter, past: seq<Event>, events: seq<Event>, now: real, end: real)
    requires ConfigOk(c) && Valid(c, l, now) && Remembered(l, past) && Monotone(now, events) && Within(events, end) && now <= end
    ensures Valid(c, After(c, l, events), end) && Remembered(After(c, l, events), past + events)
    decreases |events|
  {
    hide Step;
    if events == [] {
      LaterOk(c, l.buckets, now, end);
      assert past + events == past;
    } else {
      var e := events[0];
      assert e in events;
      hide Remembered, Valid;
      StepRemembers(c, l, past, e, now);
      StepLeaves(c, l, e, Key(0), now);
      RunRemembers(c, Step(c, l, e).0, past + [e], events[1..], e.at, end);
      assert past + [e] + events[1..] == past + events;
    }
  }

  lemma StaleIsFull(c: Config, b: Bucket, now: real)
    requires ConfigOk(c) && BucketOk(c, b, now) && Stale(c, b, now)
    ensures Spendable(c, b, now) == c.maxRequests
  {
    AtLeastOne(now - b.lastRefill, c.windowMs);
    AtLeastWhole((now - b.lastRefill) / c.windowMs, c.maxRequests);
  }

  /**
   * In every run, a client that has not asked for a window has its next requests
   * admitted, as many as the whole number of maxRequests, whatever other clients do.
   */
  lemma IdleClientAdmitted(
    c: Config, earlier: seq<Event>, stretch: seq<Event>, key: Key, start: real, i: nat)
    requires ConfigOk(c) && Monotone(0.0, earlier) && Within(earlier, start) && 0.0 <= start && Monotone(start, stretch)
    requires forall e :: e in earlier && e.Ask? && e.key == key ==> start - e.at >= c.windowMs
    requires i < |stretch| && stretch[i].Ask? && stretch[i].key == key
    requires Asks(stretch[..i], key) as real + 1.0 <= c.maxRequests
    ensures Answers(c, After(c, Limiter([], map[]), earlier), stretch)[i]
  {
    hide After, Asks, Answers, Monotone;
    var l := After(c, Limiter([], map[]), earlier);
    RunRemembers(c, Limiter([], map[]), [], earlier, 0.0, start);
    assert [] + earlier == earlier;
    if key in l.buckets {
      assert Ask(key, l.buckets[key].lastRefill) in earlier;
      StaleIsFull(c, l.buckets[key], start);
    }
    hide Spendable, Valid;
    BurstAdmitted(c, l, stretch, key, start, i);
  }

  // ----- how much a client gets -----

  /** Requests of `key` admitted among `events`. */
  function Admitted(events: seq<Event>, answers: seq<bool>, key: Key): nat
    requires |answers| == |events|
  {
    if events == [] then 0 else
      (if events[0].Ask? && events[0].key == key && answers[0] then 1 else 0) +
      Admitted(events[1..], answers[1..], key)
  }

  /** The tokens a key would have at `now`. */
  function Level(c: Config, m: Ledger, key: Key, now: real): real
    requires c.windowMs > 0.0
  {
    if key in m then Refill(c, m[key], now).tokens else c.maxRequests
  }

  lemma RefillEarns(c: Config, b: Bucket, now: real)
    requires ConfigOk(c) && BucketOk(c, b, now)
    ensures Refill(c, b, now).tokens ==
      if b.tokens + Earned(c, now - b.lastRefill) < c.maxRequests then b.tokens + Earned(c, now - b.lastRefill)
      else c.maxRequests
  {
    if now == b.lastRefill {
      assert Earned(c, now - b.lastRefill) == 0.0;
    }
  }

  lemma LevelRises(c: Config, m: Ledger, key: Key, before: real, now: real)
    requires ConfigOk(c) && LedgerOk(c, m, before) && before <= now
    ensures Level(c, m, key, now) <= Level(c, m, key, before) + Earned(c, now - before)
  {
    RateNonNegative(c, now - before);
    if key in m {
      var b := m[key];
      EarnedAdds(c, before - b.lastRefill, now - before);
      assert (before - b.lastRefill) + (now - before) == now - b.lastRefill;
      RefillEarns(c, b, before);
      RefillEarns(c, b, now);
      hide Refill, Earned;
    }
  }

  /** A step costs the asking key one token if it is admitted, and no other key anything. */
  lemma StepSpends(c: Config, m: Ledger, e: Event, key: Key, before: real)
    requires ConfigOk(c) && LedgerOk(c, m, before) && before <= e.at
    ensures LedgerOk(c, LedgerStep(c, m, e).0, e.at)
    ensures Level(c, LedgerStep(c, m, e).0, key, e.at) + (if e.Ask? && e.key == key && LedgerStep(c, m, e).1 then 1.0 else 0.0)
      == Level(c, m, key, e.at)
  {
    LaterOk(c, m, before, e.at);
    if e.Ask? {
      TakeOk(c, BucketOf(c, m, e.key, e.at), e.at);
      RefillOk(c, BucketOf(c, m, e.key, e.at), e.at);
    }
  }

  lemma LevelNonNegative(c: Config, m: Ledger, key: Key, now: real)
    requires ConfigOk(c) && LedgerOk(c, m, now)
    ensures 0.0 <= Level(c, m, key, now) <= c.maxRequests
  {
    if key in m {
      RefillOk(c, m[key], now);
    }
  }

  lemma {:induction false} ReferenceSpends(c: Config, m: Ledger, events: seq<Event>, key: Key, now: real, end: real)
    requires ConfigOk(c) && LedgerOk(c, m, now) && Monotone(now, events) && Within(events, end) && now <= end
    ensures Admitted(events, LedgerAnswers(c, m, events), key) as real <= Level(c, m, key, now) + Earned(c, end - now)
    decreases |events|
  {
    if events == [] {
      LevelNonNegative(c, m, key, now);
      RateNonNegative(c, end - now);
    } else {
      var e := events[0];
      assert e in events;
      var next := LedgerStep(c, m, e).0;
      StepSpends(c, m, e, key, now);
      LevelRises(c, m, key, now, e.at);
      EarnedAdds(c, e.at - now, end - e.at);
      assert (e.at - now) + (end - e.at) == end - now;
      hide Level, Earned, LedgerOk, LedgerStep;
      ReferenceSpends(c, next, events[1..], key, e.at, end);
      var answers := LedgerAnswers(c, m, events);
      assert answers[1..] == LedgerAnswers(c, next, events[1..]);
    }
  }

  function After(c: Config, l: Limiter, events: seq<Event>): Limiter
    requires c.windowMs > 0.0
    decreases |events|
  {
    if events == [] then l else After(c, Step(c, l, events[0]).0, events[1..])
  }

  function LedgerAfter(c: Config, m: Ledger, events: seq<Event>): Ledger
    requires c.windowMs > 0.0
    decreases |events|
  {
    if events == [] then m else LedgerAfter(c, LedgerStep(c, m, events[0]).0, events[1..])
  }

  /** The relation to the reference holds at every point of a run. */
  lemma {:induction false} RunRefines(
    c: Config, l: Limiter, m: Ledger, past: seq<Event>, events: seq<Event>, now: real, end: real)
    requires ConfigOk(c) && Valid(c, l, now) && LedgerOk(c, m, now) && Refines(c, l, m, now) && Remembered(l, past)
    requires Monotone(now, events) && Within(events, end) && now <= end && Spread(c, past, events)
    ensures Valid(c, After(c, l, events), end) && LedgerOk(c, LedgerAfter(c, m, events), end)
    ensures Refines(c, After(c, l, events), LedgerAfter(c, m, events), end)
    ensures Remembered(After(c, l, events), past + events)
    decreases |events|
  {
    hide Step, LedgerStep, Crowd;
    if events == [] {
      LaterOk(c, m, now, end);
      LaterOk(c, l.buckets, now, end);
      assert past + events == past;
    } else {
      var e := events[0];
      assert e in events;
      hide Valid, LedgerOk, Refines, Remembered;
      StepAgrees(c, l, m, past, e, now);
      RunRefines(c, Step(c, l, e).0, LedgerStep(c, m, e).0, past + [e], events[1..], e.at, end);
      assert past + [e] + events[1..] == past + events;
    }
  }

  lemma {:induction false} SpreadSplits(c: Config, past: seq<Event>, a: seq<Event>, b: seq<Event>)
    requires Spread(c, past, a + b)
    ensures Spread(c, past, a) && Spread(c, past + a, b)
    decreases |a|
  {
    hide Crowd;
    if a == [] {
      assert a + b == b && past + a == past;
    } else {
      assert (a + b)[1..] == a[1..] + b && (a + b)[0] == a[0];
      SpreadSplits(c, past + [a[0]], a[1..], b);
      assert past + [a[0]] + a[1..] == past + a;
    }
  }

  /**
   * In any stretch of a run that lasts t, a client is admitted at most
   * maxRequests * (1 + t / windowMs) times.
   */
  lemma AdmitsWithinRate(
    c: Config, earlier: seq<Event>, stretch: seq<Event>, key: Key, start: real, end: real)
    requires ConfigOk(c) && Spread(c, [], earlier + stretch)
    requires Monotone(0.0, earlier) && Within(earlier, start) && Monotone(start, stretch) && Within(stretch, end)
    requires 0.0 <= start <= end
    ensures var empty := Limiter([], map[]);
      Admitted(stretch, Answers(c, After(c, empty, earlier), stretch), key) as real
        <= c.maxRequests * (1.0 + (end - start) / c.windowMs)
  {
    hide Answers, LedgerAnswers, After, LedgerAfter, Admitted, Monotone, Within, Spread, LedgerOk, Level, Earned;
    var l, m := After(c, Limiter([], map[]), earlier), LedgerAfter(c, map[], earlier);
    StretchAgrees(c, earlier, stretch, start);
    ReferenceSpends(c, m, stretch, key, start, end);
    LevelNonNegative(c, m, key, start);
    EarnedForm(c, end - start);
  }

  lemma StretchAgrees(c: Config, earlier: seq<Event>, stretch: seq<Event>, start: real)
    requires ConfigOk(c) && Spread(c, [], earlier + stretch) && 0.0 <= start
    requires Monotone(0.0, earlier) && Within(earlier, start) && Monotone(start, stretch)
    ensures var l, m := After(c, Limiter([], map[]), earlier), LedgerAfter(c, map[], earlier);
      LedgerOk(c, m, start) && Answers(c, l, stretch) == LedgerAnswers(c, m, stretch)
  {
    hide Answers, LedgerAnswers, After, LedgerAfter, Monotone, Within, Spread;
    SpreadSplits(c, [], earlier, stretch);
    assert [] + earlier == earlier;
    RunRefines(c, Limiter([], map[]), map[], [], earlier, 0.0, start);
    hide Valid, Refines, LedgerOk, Remembered;
    RunsAgree(c, After(c, Limiter([], map[]), earlier), LedgerAfter(c, map[], earlier), earlier, stretch, start);
  }

  lemma EarnedForm(c: Config, t: real)
    requires c.windowMs > 0.0
    ensures c.maxRequests + Earned(c, t) == c.maxRequests * (1.0 + t / c.windowMs)
  {
    var f := t / c.windowMs;
    assert c.maxRequests + f * c.maxRequests == c.maxRequests * (1.0 + f);
  }

  // ----- the client key -----

  /** The rightmost hop that is not a trusted proxy, if there is one. */
  function RightmostUntrusted(hops: seq<Key>, trusted: set<Key>, otherwise: Key): Key {
    if hops == [] then otherwise
    else if hops[|hops| - 1] !in trusted then hops[|hops| - 1]
    else RightmostUntrusted(hops[..|hops| - 1], trusted, otherwise)
  }

  function ClientKey(peer: Key, hops: seq<Key>, trusted: set<Key>): Key {
    if peer !in trusted then peer else RightmostUntrusted(hops, trusted, peer)
  }

  /** What stands left of the address the nearest trusted proxy saw has no say in the key. */
  lemma {:induction false} LeftHopsIgnored(peer: Key, forged: seq<Key>, hops: seq<Key>, trusted: set<Key>)
    requires peer !in trusted || exists h :: h in hops && h !in trusted
    ensures ClientKey(peer, forged + hops, trusted) == ClientKey(peer, hops, trusted)
  {
    if peer in trusted {
      var last := |hops| - 1;
      assert forged + hops == (forged + hops[..last]) + [hops[last]];
      assert (forged + hops)[..|forged + hops| - 1] == forged + hops[..last];
      if hops[last] in trusted {
        var h :| h in hops && h !in trusted;
        assert h in hops[..last];
        LeftHopsIgnored(peer, forged, hops[..last], trusted);
      }
    }
  }

  method ClientKeyForRequest(peer: Key, hops: seq<Key>, trusted: set<Key>) returns (key: Key)
    ensures key == ClientKey(peer, hops, trusted)
    ensures peer !in trusted ==> key == peer
    ensures peer in trusted && key in trusted ==> key == peer && forall h :: h in hops ==> h in trusted
    ensures key == peer || key in hops
  {
    if peer !in trusted {
      return peer;
    }
    var i := |hops|;
    assert hops[..i] == hops;
    while i > 0
      invariant 0 <= i <= |hops|
      invariant forall j :: i <= j < |hops| ==> hops[j] in trusted
      invariant RightmostUntrusted(hops, trusted, peer) == RightmostUntrusted(hops[..i], trusted, peer)
    {
      i := i - 1;
      assert hops[..i + 1][..i] == hops[..i];
      if hops[i] !in trusted {
        return hops[i];
      }
    }
    return peer;
  }

  // ----- the code -----

  class HttpRateLimiter {
    const c: Config
    var l: Limiter

    constructor (maxRequests: real, windowMs: real, maxClients: int)
      requires maxRequests >= 0.0 && windowMs > 0.0
      ensures c == Config(maxRequests, windowMs, if maxClients < 1 then 1 else maxClients)
      ensures l == Limiter([], map[]) && ConfigOk(c) && Valid(c, l, 0.0)
    {
      c := Config(maxRequests, windowMs, if maxClients < 1 then 1 else maxClients);
      l := Limiter([], map[]);
    }

    method Allow(key: Key, now: real, ghost before: real) returns (ok: bool)
      requires ConfigOk(c) && Valid(c, l, before) && before <= now
      modifies this`l
      ensures (l, ok) == IsAllowed(c, old(l), key, now) && Valid(c, l, now)
      ensures ok <==> Available(c, old(l), key, now) >= 1.0
    {
      IsAllowedKeeps(c, l, key, before, now);
      AllowedIff(c, l, key, before, now);
      hide Available, Spendable, Valid, Touch, Refill, Take;
      var bucket := FindOrCreate(key, now);
      bucket, ok := RefillAndTake(bucket, now);
      l := l.(buckets := l.buckets[key := bucket]);
    }

    method RefillAndTake(bucket: Bucket, now: real) returns (b: Bucket, ok: bool)
      requires c.windowMs > 0.0
      ensures (b, ok) == Take(Refill(c, bucket, now))
    {
      b := bucket;
      var elapsed := now - b.lastRefill;
      if elapsed > 0.0 {
        var full := b.tokens + elapsed / c.windowMs * c.maxRequests;
        b := Bucket(if full < c.maxRequests then full else c.maxRequests, now);
      }
      assert b == Refill(c, bucket, now);
      hide Refill;
      ok := b.tokens >= 1.0;
      if ok {
        b := b.(tokens := b.tokens - 1.0);
      }
    }

    /** The key's bucket, moved or added at the end. */
    method FindOrCreate(key: Key, now: real) returns (bucket: Bucket)
      modifies this`l
      ensures l == Touch(c, old(l), key, now) && key in l.buckets && bucket == l.buckets[key]
    {
      if key in l.buckets {
        bucket := l.buckets[key];
        l := l.(order := Without(l.order, key));
      } else {
        if |l.order| >= c.maxClients && l.order != [] {
          var oldest := l.order[0];
          l := Limiter(l.order[1..], l.buckets - {oldest});
        }
        bucket := Bucket(c.maxRequests, now);
      }
      assert key in old(l).buckets ==> l.buckets[key := bucket] == l.buckets;
      l := Limiter(l.order + [key], l.buckets[key := bucket]);
    }

    /** Deletes in the order of the map; what is left is what has not been idle for a window. */
    method PruneIdle(now: real, ghost before: real) returns (pruned: nat)
      requires Valid(c, l, before) && before <= now
      modifies this`l
      ensures l == Prune(c, old(l), now) && Valid(c, l, now)
      ensures pruned == |old(l).order| - |l.order|
      ensures forall k :: k in l.buckets <==> k in old(l).buckets && now - old(l).buckets[k].lastRefill < c.windowMs
    {
      PruneKeeps(c, l, before, now);
      var order, buckets := SweepIdle(c, l, now);
      KeptMembers(c, l, l.order, now);
      pruned := |l.order| - |order|;
      AllDropped(c, l, now, before);
      l := Limiter(order, buckets);
    }
  }

  /** The loop of prune: the keys in order, each stale one deleted. */
  method SweepIdle(c: Config, l: Limiter, now: real) returns (kept: seq<Key>, buckets: map<Key, Bucket>)
    requires Distinct(l.order) && forall k :: k in l.order ==> k in l.buckets
    ensures kept == Kept(c, l, l.order, now)
    ensures buckets == l.buckets - Dropped(c, l.buckets, l.order, now)
  {
    hide Kept, Dropped;
    KeptNone(c, l, now);
    kept, buckets := [], l.buckets;
    for i := 0 to |l.order|
      invariant kept == Kept(c, l, l.order[..i], now)
      invariant buckets == l.buckets - Dropped(c, l.buckets, l.order[..i], now)
    {
      var key := l.order[i];
      assert key in l.order && key !in l.order[..i];
      assert l.order[..i + 1] == l.order[..i] + [key];
      KeptAppend(c, l, l.order[..i], key, now);
      KeptOne(c, l, key, now);
      NotDropped(c, l.buckets, l.order[..i], key, now);
      DroppedAppend(c, l.buckets, l.order[..i], key, now);
      if now - buckets[key].lastRefill >= c.windowMs {
        buckets := buckets - {key};
      } else {
        kept := kept + [key];
      }
    }
    assert l.order[..|l.order|] == l.order;
  }

  lemma KeptNone(c: Config, l: Limiter, now: real)
    ensures Kept(c, l, l.order[..0], now) == [] && Dropped(c, l.buckets, l.order[..0], now) == {}
  {
  }

  lemma NotDropped(c: Config, buckets: map<Key, Bucket>, order: seq<Key>, key: Key, now: real)
    requires key !in order
    ensures key !in Dropped(c, buckets, order, now)
  {
  }

  /** The keys of `order` whose bucket has been idle for a window. */
  ghost function Dropped(c: Config, buckets: map<Key, Bucket>, order: seq<Key>, now: real): set<Key> {
    set k | k in order && k in buckets && Stale(c, buckets[k], now)
  }

  lemma DroppedAppend(c: Config, buckets: map<Key, Bucket>, order: seq<Key>, key: Key, now: real)
    ensures Dropped(c, buckets, order + [key], now) ==
      Dropped(c, buckets, order, now) + if key in buckets && Stale(c, buckets[key], now) then {key} else {}
  {
  }

  lemma AllDropped(c: Config, l: Limiter, now: real, before: real)
    requires Valid(c, l, before)
    ensures l.buckets - Dropped(c, l.buckets, l.order, now) == Prune(c, l, now).buckets
  {
  }

  lemma {:induction false} KeptAppend(c: Config, l: Limiter, order: seq<Key>, key: Key, now: real)
    ensures Kept(c, l, order + [key], now) == Kept(c, l, order, now) + Kept(c, l, [key], now)
  {
    if order == [] {
      assert order + [key] == [key];
    } else {
      KeptAppend(c, l, order[1..], key, now);
      assert (order + [key])[1..] == order[1..] + [key];
      Associate(Kept(c, l, [order[0]], now), Kept(c, l, order[1..], now), Kept(c, l, [key], now));
      KeptOne(c, l, order[0], now);
    }
  }

  lemma Associate(a: seq<Key>, b: seq<Key>, d: seq<Key>)
    ensures (a + b) + d == a + (b + d)
  {
  }

  lemma KeptOne(c: Config, l: Limiter, key: Key, now: real)
    ensures Kept(c, l, [key], now) == if key in l.buckets && Stale(c, l.buckets[key], now) then [] else [key]
  {
    assert [key][1..] == [];
  }
}
