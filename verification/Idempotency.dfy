/**
 * Idempotency keys and payment markers of the daemon (src/cli/daemon.ts).
 *
 * A keyed payment is protected by a write-ahead protocol: a reservation in
 * memory while its handler runs, a durable marker written before its HTLC
 * goes out, and a cached marker once the handler timed out. `Ledger` is that
 * code; `Step` puts it in a world where writes fail, the process stops at any
 * point and payments end on their own. The theorems hold over every run.
 */
module Idempotency {

  const TTL_MS: nat := 24 * 60 * 60 * 1000

  datatype Route = OfferPay | Keysend | OtherRoute

  /** The route and the caller's header, joined. */
  datatype Key = Key(route: Route, name: string)

  datatype Hash = Hash(id: nat)
  /** The digest of a request body. */
  datatype Body = Body(digest: nat)
  datatype Response = Response(id: nat)

  datatype Option<T> = None | Some(value: T)

  /** What the durable row holds for a key. */
  datatype Mark = Mark(body: Body, expiresAt: nat, hash: Hash)

  /** A cache entry: a returned response, or the payment a key started. */
  datatype Cached =
    | Reply(body: Body, expiresAt: nat, response: Response)
    | Started(mark: Mark)
  {
    function BodyOf(): Body { if Reply? then body else mark.body }
    function ExpiresAt(): nat { if Reply? then expiresAt else mark.expiresAt }
  }

  /** Where a payment stands. `Unsent`: no HTLC ever went out for it. */
  datatype Outcome = Unsent | Live | Settled | Gone

  type Outcomes = map<Hash, Outcome>

  function OutcomeOf(outcomes: Outcomes, h: Hash): (o: Outcome) {
    if h in outcomes then outcomes[h] else Unsent
  }

  /** The daemon's tables and its one durable row. */
  datatype Store = Store(
    cache: map<Key, Cached>,
    inFlight: map<Key, Body>,
    markers: map<Key, Mark>,
    row: map<Key, Mark>)

  /** The row a save writes: markers in flight, overridden by cached ones. */
  function SavedRow(cache: map<Key, Cached>, markers: map<Key, Mark>): (row: map<Key, Mark>)
    ensures forall k :: k in row <==> k in markers || (k in cache && cache[k].Started?)
  {
    markers + map k | k in cache && cache[k].Started? :: cache[k].mark
  }

  function Save(s: Store, lands: bool): (t: Store) {
    if lands then s.(row := SavedRow(s.cache, s.markers)) else s
  }

  // ----- booting -----

  function Boot(row: map<Key, Mark>): (s: Store) {
    Store(map k | k in row :: Started(row[k]), map[], map[], row)
  }

  // ----- a keyed request -----

  datatype Decision =
    | Conflict                       // same key, another body
    | Cached(response: Response)     // answered from the cache
    | Paid(hash: Hash)               // the payment it started was made
    | StillOut(hash: Hash)           // 409 carrying the hash
    | Wait                           // the same request is running
    | Run                            // the handler runs

  /** Not 'gone': an unsent payment reads as gone, since nothing is out for it. */
  predicate MaySettle(o: Outcome) {
    o == Live || o == Settled
  }

  /** `paid`: the hashes whose record reads COMPLETED. */
  function Replay(hash: Hash, outcomes: Outcomes, paid: set<Hash>): (d: Decision) {
    if OutcomeOf(outcomes, hash) == Settled && hash in paid then Paid(hash) else StillOut(hash)
  }

  /** The first attempt can no longer settle: its marker goes, and this one runs. */
  function Forget(s: Store, key: Key, lands: bool): (t: Store) {
    if key in s.cache then Save(s.(cache := s.cache - {key}), lands) else s
  }

  function Arrive(s: Store, key: Key, body: Body, outcomes: Outcomes, paid: set<Hash>, lands: bool): (r: (Store, Decision)) {
    if key in s.cache && s.cache[key].BodyOf() != body then (s, Conflict)
    else if key in s.cache && s.cache[key].Reply? then (s, Decision.Cached(s.cache[key].response))
    else if key in s.cache && MaySettle(OutcomeOf(outcomes, s.cache[key].mark.hash)) then
      (s, Replay(s.cache[key].mark.hash, outcomes, paid))
    else
      var t := Forget(s, key, lands);
      if key in t.inFlight then (t, if t.inFlight[key] != body then Conflict else Wait)
      else (t.(inFlight := t.inFlight[key := body]), Run)
  }

  // ----- the handler announces its payment hash -----

  function Announce(s: Store, key: Key, body: Body, now: nat, hash: Hash, lands: bool): (r: (Store, bool)) {
    var marked := s.(markers := s.markers[key := Mark(body, now + TTL_MS, hash)]);
    if lands then (Save(marked, true), true) else (s.(markers := s.markers - {key}), false)
  }

  // ----- the handler settles -----

  datatype Ending = Returned(response: Response) | TimedOut(hash: Hash) | Threw

  function MarksTimeout(key: Key): bool {
    key.route == OfferPay || key.route == Keysend
  }

  predicate LeavesMarker(key: Key, ending: Ending) {
    ending.TimedOut? && MarksTimeout(key)
  }

  /** The reservation goes, and a timeout becomes a cached marker. */
  function Release(s: Store, key: Key, body: Body, ending: Ending, now: nat): (t: Store) {
    Store(
      if LeavesMarker(key, ending) then s.cache[key := Started(Mark(body, now + TTL_MS, ending.hash))] else s.cache,
      s.inFlight - {key}, s.markers - {key}, s.row)
  }

  function Record(s: Store, key: Key, body: Body, ending: Ending, now: nat): (t: Store) {
    if ending.Returned? then s.(cache := s.cache[key := Reply(body, now + TTL_MS, ending.response)]) else s
  }

  function Finish(s: Store, key: Key, body: Body, ending: Ending, now: nat, lands: bool): (t: Store) {
    var released := Release(s, key, body, ending, now);
    var saved := if LeavesMarker(key, ending) || key in s.markers then Save(released, lands) else released;
    Record(saved, key, body, ending, now)
  }

  // ----- the cleanup tick -----

  predicate KeptByTick(entry: Cached, now: nat, outcomes: Outcomes) {
    now < entry.ExpiresAt() || (entry.Started? && OutcomeOf(outcomes, entry.mark.hash) == Live)
  }

  function TickEntry(entry: Cached, now: nat): (e: Cached) {
    if now < entry.ExpiresAt() || entry.Reply? then entry
    else Started(entry.mark.(expiresAt := now + TTL_MS))
  }

  function TickCache(cache: map<Key, Cached>, now: nat, outcomes: Outcomes): (c: map<Key, Cached>) {
    map k | k in cache && KeptByTick(cache[k], now, outcomes) :: TickEntry(cache[k], now)
  }

  predicate TickTouchesMarker(cache: map<Key, Cached>, now: nat) {
    exists k :: k in cache && cache[k].Started? && cache[k].ExpiresAt() <= now
  }

  function Tick(s: Store, now: nat, outcomes: Outcomes, lands: bool): (t: Store) {
    var ticked := s.(cache := TickCache(s.cache, now, outcomes));
    if TickTouchesMarker(s.cache, now) then Save(ticked, lands) else ticked
  }

  // ----- the code -----

  /** The daemon's maps and its row in storage, updated step by step. */
  class Ledger {
    var cache: map<Key, Cached>
    var inFlight: map<Key, Body>
    var markers: map<Key, Mark>
    var row: map<Key, Mark>

    ghost function Now(): Store
      reads this
    {
      Store(cache, inFlight, markers, row)
    }

    /** Every stored marker is cached before the first request. */
    constructor (stored: map<Key, Mark>)
      ensures Now() == Boot(stored)
    {
      row, inFlight, markers := stored, map[], map[];
      var loaded: map<Key, Cached>, rest := map[], stored.Keys;
      while rest != {}
        invariant rest <= stored.Keys
        invariant loaded == map k | k in stored && k !in rest :: Started(stored[k])
      {
        var key :| key in rest;
        loaded, rest := loaded[key := Started(stored[key])], rest - {key};
      }
      cache := loaded;
    }

    /** False when the write failed; the row is then as it was. */
    method SaveTimeoutMarkers(lands: bool) returns (ok: bool)
      modifies this`row
      ensures ok == lands && Now() == Save(old(Now()), lands)
    {
      var kept, rest := markers, cache.Keys;
      while rest != {}
        invariant rest <= cache.Keys
        invariant forall k :: k in kept <==> k in markers || (k in cache && k !in rest && cache[k].Started?)
        invariant forall k :: k in kept ==>
          kept[k] == if k in cache && k !in rest && cache[k].Started? then cache[k].mark else markers[k]
      {
        var key :| key in rest;
        rest := rest - {key};
        if cache[key].Started? { kept := kept[key := cache[key].mark]; }
      }
      assert kept == SavedRow(cache, markers);
      if lands { row := kept; }
      ok := lands;
    }

    method Request(key: Key, body: Body, outcomes: Outcomes, paid: set<Hash>, lands: bool) returns (d: Decision)
      modifies this
      ensures (Now(), d) == Arrive(old(Now()), key, body, outcomes, paid, lands)
    {
      if key in cache {
        var cached := cache[key];
        if cached.BodyOf() != body { return Conflict; }
        if cached.Reply? { return Decision.Cached(cached.response); }
        var hash := cached.mark.hash;
        if MaySettle(OutcomeOf(outcomes, hash)) { return Replay(hash, outcomes, paid); }
        cache := cache - {key};
        var _ := SaveTimeoutMarkers(lands);
      }
      if key in inFlight {
        if inFlight[key] != body { return Conflict; }
        return Wait;
      }
      inFlight := inFlight[key := body];
      return Run;
    }

    /** Called before the HTLC goes out; false refuses the payment. */
    method OnPaymentHash(key: Key, body: Body, now: nat, hash: Hash, lands: bool) returns (stored: bool)
      modifies this
      ensures (Now(), stored) == Announce(old(Now()), key, body, now, hash, lands)
      ensures stored <==> lands
    {
      markers := markers[key := Mark(body, now + TTL_MS, hash)];
      stored := SaveTimeoutMarkers(lands);
      if !stored { markers := markers - {key}; }
      assert old(markers)[key := Mark(body, now + TTL_MS, hash)] - {key} == old(markers) - {key};
    }

    method Settle(key: Key, body: Body, ending: Ending, now: nat, lands: bool)
      modifies this
      ensures Now() == Finish(old(Now()), key, body, ending, now, lands)
    {
      var markersChanged := false;
      if LeavesMarker(key, ending) {
        cache := cache[key := Started(Mark(body, now + TTL_MS, ending.hash))];
        markersChanged := true;
      }
      inFlight := inFlight - {key};
      if key in markers {
        markersChanged := true;
      }
      markers := markers - {key};
      if markersChanged { var _ := SaveTimeoutMarkers(lands); }
      if ending.Returned? {
        cache := cache[key := Reply(body, now + TTL_MS, ending.response)];
      }
    }

    method CleanupTick(now: nat, outcomes: Outcomes, lands: bool)
      modifies this
      ensures Now() == Tick(old(Now()), now, outcomes, lands)
    {
      var swept, rest, markerChanged := cache, cache.Keys, false;
      while rest != {}
        invariant rest <= cache.Keys
        invariant forall k :: k in swept <==> k in cache && (k in rest || KeptByTick(cache[k], now, outcomes))
        invariant forall k :: k in swept ==> swept[k] == if k in rest then cache[k] else TickEntry(cache[k], now)
        invariant markerChanged <==>
          exists k :: k in cache && k !in rest && cache[k].Started? && cache[k].ExpiresAt() <= now
      {
        var key :| key in rest;
        rest := rest - {key};
        var entry := cache[key];
        if now < entry.ExpiresAt() {
        } else if entry.Started? && OutcomeOf(outcomes, entry.mark.hash) == Live {
          swept := swept[key := Started(entry.mark.(expiresAt := now + TTL_MS))];
          markerChanged := true;
        } else {
          if entry.Started? { markerChanged := true; }
          swept := swept - {key};
        }
      }
      assert swept == TickCache(cache, now, outcomes);
      cache := swept;
      if markerChanged { var _ := SaveTimeoutMarkers(lands); }
    }
  }

  // ----- the world around it -----

  /** One run of a route handler: the body it serves and the hash it announced. */
  datatype Running = Running(body: Body, hash: Option<Hash>)

  /** `sent`: every payment a key's handler runs have put out. */
  datatype World = World(
    up: bool,
    store: Store,
    runs: map<Key, Running>,
    outcomes: Outcomes,
    sent: set<(Key, Hash)>)

  datatype Action =
    | Requested(key: Key, body: Body, seen: Outcomes, paid: set<Hash>, lands: bool)
    | Announced(key: Key, now: nat, hash: Hash, lands: bool)
    | Sent(key: Key)
    | Ended(hash: Hash, outcome: Outcome)
    | Finished(key: Key, ending: Ending, now: nat, lands: bool)
    | Ticked(now: nat, seen: Outcomes, lands: bool)
    | Crashed
    | Booted

  /** What the node answers: a live payment never reads as anything else. */
  ghost predicate ReadsSafely(seen: Outcomes, outcomes: Outcomes) {
    forall h :: OutcomeOf(outcomes, h) == Live ==> OutcomeOf(seen, h) == Live
  }

  ghost predicate Initial(w: World) {
    w == World(true, Boot(map[]), map[], map[], {})
  }

  /**
   * One step of the daemon or of its surroundings. The handler announces at
   * most one hash and sends only after that; a handler that ends in anything
   * but PAYMENT_TIMEOUT leaves no live payment; a payment never becomes live
   * again.
   */
  ghost predicate Step(w: World, a: Action, w': World) {
    match a
    case Requested(key, body, seen, paid, lands) =>
      && w.up && ReadsSafely(seen, w.outcomes)
      && var (store, d) := Arrive(w.store, key, body, seen, paid, lands);
         w' == w.(store := store, runs := if d == Run then w.runs[key := Running(body, None)] else w.runs)
    case Announced(key, now, hash, lands) =>
      && w.up && key in w.runs && w.runs[key].hash == None && MarksTimeout(key)
      && var (store, stored) := Announce(w.store, key, w.runs[key].body, now, hash, lands);
         w' == if stored
               then w.(store := store, runs := w.runs[key := w.runs[key].(hash := Some(hash))])
               else w.(store := store)
    case Sent(key) =>
      && w.up && key in w.runs && w.runs[key].hash.Some?
      && OutcomeOf(w.outcomes, w.runs[key].hash.value) == Unsent
      && w' == w.(outcomes := w.outcomes[w.runs[key].hash.value := Live],
                  sent := w.sent + {(key, w.runs[key].hash.value)})
    case Ended(hash, outcome) =>
      && OutcomeOf(w.outcomes, hash) == Live && outcome in {Settled, Gone}
      && w' == w.(outcomes := w.outcomes[hash := outcome])
    case Finished(key, ending, now, lands) =>
      && w.up && key in w.runs
      && (LeavesMarker(key, ending) ==> w.runs[key].hash == Some(ending.hash))
      && (!LeavesMarker(key, ending) && w.runs[key].hash.Some? ==>
            !LivePayment(w, key, w.runs[key].hash.value))
      && w' == w.(store := Finish(w.store, key, w.runs[key].body, ending, now, lands), runs := w.runs - {key})
    case Ticked(now, seen, lands) =>
      && w.up && ReadsSafely(seen, w.outcomes)
      && w' == w.(store := Tick(w.store, now, seen, lands))
    case Crashed =>
      && w.up
      && w' == w.(up := false, store := Store(map[], map[], map[], w.store.row), runs := map[])
    case Booted =>
      && !w.up
      && w' == w.(up := true, store := Boot(w.store.row))
  }

  // ----- what every step keeps -----

  /** Reservations are exactly the running handlers, and exclude the cache. */
  ghost predicate Reserved(w: World) {
    && w.store.inFlight.Keys == w.runs.Keys
    && w.runs.Keys !! w.store.cache.Keys
    && w.store.markers.Keys <= w.runs.Keys
    && (!w.up ==> w.runs == map[])
    && (forall k :: k in w.runs ==>
          (k in w.store.markers <==> w.runs[k].hash.Some?)
          && (k in w.store.markers ==> w.store.markers[k].hash == w.runs[k].hash.value))
  }

  ghost predicate HasRow(w: World, k: Key, h: Hash) {
    k in w.store.row && w.store.row[k].hash == h
  }

  /** A running handler's announced hash is in the durable row. */
  ghost predicate RunsStored(w: World) {
    forall k :: k in w.runs && w.runs[k].hash.Some? ==> HasRow(w, k, w.runs[k].hash.value)
  }

  /** In memory, a reservation or a cached marker stands for the payment. */
  ghost predicate Held(w: World, k: Key, h: Hash) {
    || (k in w.runs && w.runs[k].hash == Some(h))
    || (k in w.store.cache && w.store.cache[k].Started? && w.store.cache[k].mark.hash == h)
  }

  ghost predicate LivePayment(w: World, k: Key, h: Hash) {
    (k, h) in w.sent && OutcomeOf(w.outcomes, h) == Live
  }

  /** Every live payment has its key's durable marker, and is held in memory. */
  ghost predicate LiveStored(w: World) {
    forall k, h :: LivePayment(w, k, h) ==> HasRow(w, k, h) && (w.up ==> Held(w, k, h))
  }

  ghost predicate SentKnown(w: World) {
    forall k, h :: (k, h) in w.sent ==> OutcomeOf(w.outcomes, h) != Unsent
  }

  ghost predicate Safe(w: World) {
    Reserved(w) && RunsStored(w) && LiveStored(w) && SentKnown(w)
  }

  /** Whatever is saved, and whether or not the write lands, the invariant stays. */
  lemma SaveKeepsSafe(w: World, lands: bool)
    requires Safe(w) && w.up
    ensures Safe(w.(store := Save(w.store, lands)))
  {
    var w' := w.(store := Save(w.store, lands));
    forall k, h | LivePayment(w', k, h) ensures HasRow(w', k, h) && Held(w', k, h) {
      assert LivePayment(w, k, h);
    }
  }

  /** Taking an entry out of the cache is safe unless it stands for a live payment. */
  lemma DropKeepsSafe(w: World, key: Key)
    requires Safe(w) && w.up
    requires key in w.store.cache && w.store.cache[key].Started? ==> !LivePayment(w, key, w.store.cache[key].mark.hash)
    ensures Safe(w.(store := w.store.(cache := w.store.cache - {key})))
  {
    var w' := w.(store := w.store.(cache := w.store.cache - {key}));
    forall k, h | LivePayment(w', k, h) ensures HasRow(w', k, h) && Held(w', k, h) {
      assert LivePayment(w, k, h);
    }
  }

  lemma ReserveKeepsSafe(w: World, key: Key, body: Body)
    requires Safe(w) && w.up && key !in w.store.inFlight && key !in w.store.cache
    ensures Safe(w.(store := w.store.(inFlight := w.store.inFlight[key := body]),
                    runs := w.runs[key := Running(body, None)]))
  {
    var w' := w.(store := w.store.(inFlight := w.store.inFlight[key := body]),
                 runs := w.runs[key := Running(body, None)]);
    forall k, h | LivePayment(w', k, h) ensures HasRow(w', k, h) && Held(w', k, h) {
      assert LivePayment(w, k, h);
    }
  }

  lemma RequestKeepsSafe(w: World, a: Action, w': World)
    requires Safe(w) && a.Requested? && Step(w, a, w')
    ensures Safe(w')
  {
    hide Safe, Save;
    var answered := a.key in w.store.cache &&
      (w.store.cache[a.key].BodyOf() != a.body || w.store.cache[a.key].Reply?
       || MaySettle(OutcomeOf(a.seen, w.store.cache[a.key].mark.hash)));
    if !answered {
      var t := Forget(w.store, a.key, a.lands);
      if a.key in w.store.cache {
        DropKeepsSafe(w, a.key);
        SaveKeepsSafe(w.(store := w.store.(cache := w.store.cache - {a.key})), a.lands);
      }
      assert Safe(w.(store := t));
      if a.key !in t.inFlight {
        ForgetDrops(w.store, a.key, a.lands);
        ReserveKeepsSafe(w.(store := t), a.key, a.body);
      }
    }
  }

  lemma ForgetDrops(s: Store, key: Key, lands: bool)
    ensures key !in Forget(s, key, lands).cache
  {
  }

  lemma AnnounceKeepsSafe(w: World, a: Action, w': World)
    requires Safe(w) && a.Announced? && Step(w, a, w')
    ensures Safe(w')
  {
    forall k, h | LivePayment(w', k, h) ensures HasRow(w', k, h) && Held(w', k, h) {
      assert LivePayment(w, k, h);
    }
  }

  lemma ReleaseKeepsSafe(w: World, key: Key, ending: Ending, now: nat)
    requires Safe(w) && w.up && key in w.runs
    requires LeavesMarker(key, ending) ==> w.runs[key].hash == Some(ending.hash)
    requires !LeavesMarker(key, ending) && w.runs[key].hash.Some? ==> !LivePayment(w, key, w.runs[key].hash.value)
    ensures Safe(w.(store := Release(w.store, key, w.runs[key].body, ending, now), runs := w.runs - {key}))
  {
    var w' := w.(store := Release(w.store, key, w.runs[key].body, ending, now), runs := w.runs - {key});
    forall k, h | LivePayment(w', k, h) ensures HasRow(w', k, h) && Held(w', k, h) {
      assert LivePayment(w, k, h);
    }
  }

  lemma RecordKeepsSafe(w: World, key: Key, body: Body, ending: Ending, now: nat)
    requires Safe(w) && w.up && key !in w.runs && key !in w.store.cache
    ensures Safe(w.(store := Record(w.store, key, body, ending, now)))
  {
    var w' := w.(store := Record(w.store, key, body, ending, now));
    forall k, h | LivePayment(w', k, h) ensures HasRow(w', k, h) && Held(w', k, h) {
      assert LivePayment(w, k, h);
    }
  }

  lemma FinishKeepsSafe(w: World, a: Action, w': World)
    requires Safe(w) && a.Finished? && Step(w, a, w')
    ensures Safe(w')
  {
    hide LivePayment, Save, RunsStored, LiveStored, SentKnown;
    var key, body := a.key, w.runs[a.key].body;
    ReleaseKeepsSafe(w, key, a.ending, a.now);
    var released := w.(store := Release(w.store, key, body, a.ending, a.now), runs := w.runs - {key});
    SaveKeepsSafe(released, a.lands);
    SaveKeepsCache(released.store, a.lands);
    var saved := if LeavesMarker(key, a.ending) || key in w.store.markers
                 then released.(store := Save(released.store, a.lands)) else released;
    assert saved.store.cache == released.store.cache;
    if a.ending.Returned? { RecordKeepsSafe(saved, key, body, a.ending, a.now); }
  }

  lemma SaveKeepsCache(s: Store, lands: bool)
    ensures Save(s, lands).cache == s.cache
  {
  }

  lemma TickKeepsSafe(w: World, a: Action, w': World)
    requires Safe(w) && a.Ticked? && Step(w, a, w')
    ensures Safe(w')
  {
    var ticked := w.(store := w.store.(cache := TickCache(w.store.cache, a.now, a.seen)));
    forall k, h | LivePayment(ticked, k, h) ensures HasRow(ticked, k, h) && Held(ticked, k, h) {
      assert LivePayment(w, k, h);
    }
    SaveKeepsSafe(ticked, a.lands);
  }

  lemma SentKeepsSafe(w: World, a: Action, w': World)
    requires Safe(w) && a.Sent? && Step(w, a, w')
    ensures Safe(w')
  {
    var hash := w.runs[a.key].hash.value;
    forall k, h | LivePayment(w', k, h) ensures HasRow(w', k, h) && Held(w', k, h) {
      if (k, h) != (a.key, hash) {
        assert (k, h) in w.sent;
        assert LivePayment(w, k, h);
      }
    }
  }

  lemma WorldKeepsSafe(w: World, a: Action, w': World)
    requires Safe(w) && Step(w, a, w') && (a.Ended? || a.Crashed? || a.Booted?)
    ensures Safe(w')
  {
    forall k, h | LivePayment(w', k, h) ensures HasRow(w', k, h) && (w'.up ==> Held(w', k, h)) {
      assert LivePayment(w, k, h);
    }
  }

  /** Each live payment keeps its durable marker and its place in memory over every step. */
  lemma StepKeepsSafe(w: World, a: Action, w': World)
    requires Safe(w) && Step(w, a, w')
    ensures Safe(w')
  {
    hide Safe, Step;
    match a
    case Requested(_, _, _, _, _) => RequestKeepsSafe(w, a, w');
    case Announced(_, _, _, _) => AnnounceKeepsSafe(w, a, w');
    case Sent(_) => SentKeepsSafe(w, a, w');
    case Finished(_, _, _, _) => FinishKeepsSafe(w, a, w');
    case Ticked(_, _, _) => TickKeepsSafe(w, a, w');
    case _ => WorldKeepsSafe(w, a, w');
  }

  // ----- over whole runs -----

  /** A run of the daemon and its surroundings, with the action between states. */
  ghost predicate IsRun(ws: seq<World>, acts: seq<Action>) {
    && |ws| == |acts| + 1
    && Initial(ws[0])
    && forall i :: 0 <= i < |acts| ==> Step(ws[i], acts[i], ws[i + 1])
  }

  lemma {:induction false} RunIsSafe(ws: seq<World>, acts: seq<Action>, i: nat)
    requires IsRun(ws, acts) && i < |ws|
    ensures Safe(ws[i])
  {
    hide Safe, Step;
    if i == 0 {
      InitialIsSafe(ws[0]);
    } else {
      RunIsSafe(ws, acts, i - 1);
      assert Step(ws[i - 1], acts[i - 1], ws[i - 1 + 1]);
      StepKeepsSafe(ws[i - 1], acts[i - 1], ws[i]);
    }
  }

  lemma InitialIsSafe(w: World)
    requires Initial(w)
    ensures Safe(w)
  {
  }

  /** The handler of `key` starts at this action. */
  ghost predicate StartsHandler(w: World, a: Action, key: Key) {
    a.Requested? && a.key == key && Arrive(w.store, key, a.body, a.seen, a.paid, a.lands).1 == Run
  }

  /**
   * Over every run, with crashes, restarts and failing writes: a handler never
   * starts for a key while a payment that key sent is still live, nor while
   * another handler of that key runs.
   */
  lemma NeverPaysTwice(ws: seq<World>, acts: seq<Action>, i: nat, key: Key, h: Hash)
    requires IsRun(ws, acts) && i < |acts| && StartsHandler(ws[i], acts[i], key)
    ensures !LivePayment(ws[i], key, h)
    ensures key !in ws[i].runs
  {
    RunIsSafe(ws, acts, i);
    assert Step(ws[i], acts[i], ws[i + 1]);
    assert !LivePayment(ws[i], key, h);
  }

  /** The body the key's payment was asked for with: the marker's, or the running handler's. */
  function HeldBody(s: Store, key: Key): Body
    requires key in s.cache || key in s.inFlight
  {
    if key in s.cache then s.cache[key].BodyOf() else s.inFlight[key]
  }

  /**
   * While a payment is live, a retry changes nothing. It is refused exactly when
   * its body differs; else it is answered with that payment's hash, or made to
   * wait for the handler if that still runs.
   */
  lemma RetryOfLivePayment(
      ws: seq<World>, acts: seq<Action>, i: nat, key: Key, h: Hash, body: Body,
      seen: Outcomes, paid: set<Hash>, lands: bool)
    requires IsRun(ws, acts) && i < |ws| && ws[i].up && LivePayment(ws[i], key, h)
    requires ReadsSafely(seen, ws[i].outcomes)
    ensures key in ws[i].store.cache <==> key !in ws[i].runs
    ensures key in ws[i].store.cache || key in ws[i].store.inFlight
    ensures var (store, answer) := Arrive(ws[i].store, key, body, seen, paid, lands);
      && store == ws[i].store
      && answer == if body != HeldBody(ws[i].store, key) then Conflict
                   else if key in ws[i].runs then Wait else StillOut(h)
  {
    hide Step;
    RunIsSafe(ws, acts, i);
    assert Held(ws[i], key, h);
  }
}
