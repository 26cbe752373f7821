/**
 * What each keyed request is answered (src/cli/daemon.ts), by what happened to
 * its key before: a returned response is given again for a day, a timed out
 * payment's marker answers for it across restarts, and nothing else is kept.
 */
module IdempotencyAnswers {
  import opened Idempotency

  /** What a key stands for between two actions. */
  datatype Standing =
    | Free
    | Busy(body: Body)
    | Replies(body: Body, expiresAt: nat, response: Response)
    | Marked(mark: Mark)

  function StandingOf(s: Store, key: Key): Standing {
    if key in s.cache then
      match s.cache[key]
      case Reply(body, expiresAt, response) => Replies(body, expiresAt, response)
      case Started(mark) => Marked(mark)
    else if key in s.inFlight then Busy(s.inFlight[key]) else Free
  }

  /** The payment may still turn out paid, as the node reports it. */
  predicate Possible(seen: Outcomes, h: Hash) {
    h in seen && (seen[h] == Live || seen[h] == Settled)
  }

  predicate ReadsLive(seen: Outcomes, h: Hash) {
    h in seen && seen[h] == Live
  }

  /** What a request is answered. */
  function AnswerTo(st: Standing, body: Body, seen: Outcomes, paid: set<Hash>): Decision {
    match st
    case Free => Run
    case Busy(b) => if b == body then Wait else Conflict
    case Replies(b, _, response) => if b == body then Decision.Cached(response) else Conflict
    case Marked(m) =>
      if m.body != body then Conflict
      else if !Possible(seen, m.hash) then Run
      else if seen[m.hash] == Settled && m.hash in paid then Paid(m.hash) else StillOut(m.hash)
  }

  /** What the end of a handler leaves for its key. */
  function Leaves(key: Key, body: Body, ending: Ending, now: nat): Standing {
    match ending
    case Returned(response) => Replies(body, now + TTL_MS, response)
    case TimedOut(h) => if key.route == OtherRoute then Free else Marked(Mark(body, now + TTL_MS, h))
    case Threw => Free
  }

  function AfterTick(st: Standing, now: nat, seen: Outcomes): Standing {
    match st
    case Replies(_, expiresAt, _) => if expiresAt <= now then Free else st
    case Marked(m) =>
      if now < m.expiresAt then st
      else if ReadsLive(seen, m.hash) then Marked(m.(expiresAt := now + TTL_MS)) else Free
    case _ => st
  }

  /** What the key stands for after an action. */
  function After(w: World, a: Action, key: Key): Standing {
    var st := StandingOf(w.store, key);
    match a
    case Requested(k, body, seen, paid, _) => if k == key && AnswerTo(st, body, seen, paid) == Run then Busy(body) else st
    case Finished(k, ending, now, _) => if k == key && st.Busy? then Leaves(key, st.body, ending, now) else st
    case Ticked(now, seen, _) => AfterTick(st, now, seen)
    case Crashed => Free
    case Booted => if key in w.store.row then Marked(w.store.row[key]) else Free
    case _ => st
  }

  ghost predicate Apart(s: Store) {
    s.cache.Keys !! s.inFlight.Keys
  }

  lemma SaveStands(s: Store, lands: bool, key: Key)
    ensures StandingOf(Save(s, lands), key) == StandingOf(s, key)
    ensures Save(s, lands).cache == s.cache && Save(s, lands).inFlight == s.inFlight
  {
  }

  lemma ForgetStands(s: Store, k: Key, lands: bool, key: Key)
    requires Apart(s)
    ensures var t := Forget(s, k, lands);
      t.cache == s.cache - {k} && t.inFlight == s.inFlight
  {
    hide SavedRow;
    assert k !in s.cache ==> s.cache - {k} == s.cache;
  }

  lemma ArriveStands(s: Store, k: Key, body: Body, seen: Outcomes, paid: set<Hash>, lands: bool, key: Key)
    requires Apart(s)
    ensures var (t, d) := Arrive(s, k, body, seen, paid, lands);
      && d == AnswerTo(StandingOf(s, k), body, seen, paid)
      && StandingOf(t, key) == (if k == key && d == Run then Busy(body) else StandingOf(s, key))
      && t.inFlight == (if d == Run then s.inFlight[k := body] else s.inFlight)
  {
    hide Save, Forget;
    ForgetStands(s, k, lands, key);
  }

  lemma FinishStands(s: Store, k: Key, body: Body, ending: Ending, now: nat, lands: bool, key: Key)
    requires Apart(s) && k in s.inFlight
    ensures var t := Finish(s, k, body, ending, now, lands);
      && StandingOf(t, key) == (if k == key then Leaves(k, body, ending, now) else StandingOf(s, key))
      && t.inFlight == s.inFlight - {k}
  {
    hide Save;
    var released := Release(s, k, body, ending, now);
    SaveStands(released, lands, key);
    assert k !in s.cache;
  }

  lemma TickStands(s: Store, now: nat, seen: Outcomes, lands: bool, key: Key)
    requires Apart(s)
    ensures var t := Tick(s, now, seen, lands);
      StandingOf(t, key) == AfterTick(StandingOf(s, key), now, seen) && t.inFlight == s.inFlight
  {
    hide Save, TickTouchesMarker;
    SaveStands(s.(cache := TickCache(s.cache, now, seen)), lands, key);
  }

  lemma AnnounceStands(s: Store, k: Key, body: Body, now: nat, hash: Hash, lands: bool, key: Key)
    ensures var (t, stored) := Announce(s, k, body, now, hash, lands);
      StandingOf(t, key) == StandingOf(s, key) && t.inFlight == s.inFlight && (stored <==> lands)
  {
    hide Save;
    SaveStands(s.(markers := s.markers[k := Mark(body, now + TTL_MS, hash)]), true, key);
  }

  /** Each reservation is for the body its handler serves. */
  ghost predicate BodiesMatch(w: World) {
    forall k :: k in w.store.inFlight ==> k in w.runs && w.store.inFlight[k] == w.runs[k].body
  }

  lemma SafeApart(w: World)
    requires Safe(w)
    ensures Apart(w.store) && w.store.inFlight.Keys == w.runs.Keys
  {
  }

  lemma StepBodies(w: World, a: Action, w': World)
    requires Safe(w) && BodiesMatch(w) && Step(w, a, w')
    ensures BodiesMatch(w')
  {
    hide Safe, Arrive, Finish, Tick, Announce, StandingOf, ReadsSafely, LivePayment, AnswerTo, Leaves, AfterTick;
    SafeApart(w);
    var any := Key(OtherRoute, "");
    match a
    case Requested(k, body, seen, paid, lands) => ArriveStands(w.store, k, body, seen, paid, lands, any);
    case Announced(k, now, hash, lands) => AnnounceStands(w.store, k, w.runs[k].body, now, hash, lands, any);
    case Finished(k, ending, now, lands) => FinishStands(w.store, k, w.runs[k].body, ending, now, lands, any);
    case Ticked(now, seen, lands) => TickStands(w.store, now, seen, lands, any);
    case _ =>
  }

  /** Every action moves every key, and answers every request, as the key's standing says. */
  lemma StepStands(w: World, a: Action, w': World, key: Key)
    requires Safe(w) && BodiesMatch(w) && Step(w, a, w')
    ensures StandingOf(w'.store, key) == After(w, a, key)
    ensures a.Requested? && a.key == key ==>
      Arrive(w.store, key, a.body, a.seen, a.paid, a.lands).1 == AnswerTo(StandingOf(w.store, key), a.body, a.seen, a.paid)
  {
    hide Safe, Arrive, Finish, Tick, Announce, StandingOf, ReadsSafely, LivePayment, AnswerTo, Leaves, AfterTick;
    SafeApart(w);
    match a
    case Requested(k, body, seen, paid, lands) => ArriveStands(w.store, k, body, seen, paid, lands, key);
    case Announced(k, now, hash, lands) => AnnounceStands(w.store, k, w.runs[k].body, now, hash, lands, key);
    case Finished(k, ending, now, lands) =>
      FinishStands(w.store, k, w.runs[k].body, ending, now, lands, key);
      BusyIs(w.store, k);
    case Ticked(now, seen, lands) => TickStands(w.store, now, seen, lands, key);
    case Crashed => NothingStands(w'.store, key);
    case Booted => BootStands(w.store.row, key);
    case _ =>
  }

  lemma BusyIs(s: Store, key: Key)
    requires Apart(s) && key in s.inFlight
    ensures StandingOf(s, key) == Busy(s.inFlight[key])
  {
  }

  lemma NothingStands(s: Store, key: Key)
    requires s.cache == map[] && s.inFlight == map[]
    ensures StandingOf(s, key) == Free
  {
  }

  lemma BootStands(row: map<Key, Mark>, key: Key)
    ensures StandingOf(Boot(row), key) == if key in row then Marked(row[key]) else Free
  {
  }

  lemma {:induction false} RunBodies(ws: seq<World>, acts: seq<Action>, i: nat)
    requires IsRun(ws, acts) && i < |ws|
    ensures BodiesMatch(ws[i])
  {
    if i > 0 {
      hide Safe, Step;
      RunBodies(ws, acts, i - 1);
      RunIsSafe(ws, acts, i - 1);
      assert Step(ws[i - 1], acts[i - 1], ws[i]);
      StepBodies(ws[i - 1], acts[i - 1], ws[i]);
    }
  }

  /** Over every run, each action moves each key by its standing alone. */
  lemma RunStands(ws: seq<World>, acts: seq<Action>, i: nat, key: Key)
    requires IsRun(ws, acts) && i < |acts|
    ensures StandingOf(ws[i + 1].store, key) == After(ws[i], acts[i], key)
    ensures acts[i].Requested? && acts[i].key == key ==>
      (StartsHandler(ws[i], acts[i], key) <==>
       AnswerTo(StandingOf(ws[i].store, key), acts[i].body, acts[i].seen, acts[i].paid) == Run)
  {
    hide Safe, Step, Arrive, After, StandingOf, AnswerTo;
    RunBodies(ws, acts, i);
    RunIsSafe(ws, acts, i);
    assert Step(ws[i], acts[i], ws[i + 1]);
    StepStands(ws[i], acts[i], ws[i + 1], key);
  }

  // ----- a response that was returned -----

  /** No crash, and no cleanup a day after `now` or later, between two points. */
  ghost predicate Quiet(acts: seq<Action>, j: nat, i: nat, now: nat)
    requires i <= |acts|
  {
    forall k :: j < k < i ==> !acts[k].Crashed? && (acts[k].Ticked? ==> acts[k].now < now + TTL_MS)
  }

  lemma {:induction false} ReturnedStands(ws: seq<World>, acts: seq<Action>, j: nat, i: nat)
    requires IsRun(ws, acts) && j < i < |ws| && acts[j].Finished? && acts[j].ending.Returned?
    requires Quiet(acts, j, i, acts[j].now)
    ensures acts[j].key in ws[j].runs && ws[i].up
    ensures StandingOf(ws[i].store, acts[j].key)
      == Replies(ws[j].runs[acts[j].key].body, acts[j].now + TTL_MS, acts[j].ending.response)
    decreases i
  {
    hide Safe, Arrive, StandingOf, Finish, Tick, Announce, LivePayment, ReadsSafely;
    var key := acts[j].key;
    assert Step(ws[j], acts[j], ws[j + 1]) && Step(ws[i - 1], acts[i - 1], ws[i]);
    RunStands(ws, acts, i - 1, key);
    if j == i - 1 {
      RunIsSafe(ws, acts, j);
      SafeApart(ws[j]);
      BusyIs(ws[j].store, key);
      RunBodies(ws, acts, j);
    } else {
      ReturnedStands(ws, acts, j, i - 1);
    }
  }

  /**
   * Once a handler returned, and until a crash or a cleanup a day later, every
   * request with its key is answered with what it returned, or refused for its
   * body; nothing changes and no handler of the key starts.
   */
  lemma ReturnedIsReplayed(
      ws: seq<World>, acts: seq<Action>, j: nat, i: nat, body: Body, seen: Outcomes, paid: set<Hash>, lands: bool)
    requires IsRun(ws, acts) && j < i < |ws| && acts[j].Finished? && acts[j].ending.Returned?
    requires Quiet(acts, j, i, acts[j].now)
    ensures acts[j].key in ws[j].runs
    ensures Arrive(ws[i].store, acts[j].key, body, seen, paid, lands)
      == (ws[i].store, if body == ws[j].runs[acts[j].key].body then Decision.Cached(acts[j].ending.response) else Conflict)
    ensures forall k :: j < k < i ==> !StartsHandler(ws[k], acts[k], acts[j].key)
  {
    ReturnedStands(ws, acts, j, i);
    hide Step;
    forall k | j < k < i ensures !StartsHandler(ws[k], acts[k], acts[j].key) {
      ReturnedStands(ws, acts, j, k);
    }
  }

  // ----- a payment that timed out -----

  lemma SavedHas(cache: map<Key, Idempotency.Cached>, markers: map<Key, Mark>, key: Key)
    requires key in cache && cache[key].Started?
    ensures key in SavedRow(cache, markers) && SavedRow(cache, markers)[key] == cache[key].mark
  {
  }

  /** A save keeps a cached marker's row, or brings it up to date. */
  ghost predicate RowKept(s: Store, t: Store, key: Key) {
    key in s.row && key in t.row && (t.row[key] == s.row[key] || StandingOf(t, key) == Marked(t.row[key]))
  }

  lemma SaveRow(s: Store, t: Store, lands: bool, key: Key)
    requires key in s.row && s.row == t.row
    ensures StandingOf(t, key) == StandingOf(Save(t, lands), key)
    ensures StandingOf(t, key).Marked? ==> RowKept(s, Save(t, lands), key)
  {
    hide SavedRow;
    SaveStands(t, lands, key);
    if StandingOf(t, key).Marked? {
      SavedHas(t.cache, t.markers, key);
    }
  }

  lemma StepRow(w: World, a: Action, w': World, key: Key)
    requires Safe(w) && Step(w, a, w') && key in w.store.row && (w'.up ==> StandingOf(w'.store, key).Marked?)
    ensures RowKept(w.store, w'.store, key)
  {
    hide Safe, Save, SavedRow, LivePayment, ReadsSafely, TickCache, TickTouchesMarker;
    match a
    case Requested(k, body, seen, paid, lands) =>
      SaveRow(w.store, w.store.(cache := w.store.cache - {k}), lands, key);
    case Announced(k, now, hash, lands) =>
      SaveRow(w.store, w.store.(markers := w.store.markers[k := Mark(w.runs[k].body, now + TTL_MS, hash)]), true, key);
    case Finished(k, ending, now, lands) =>
      SaveRow(w.store, Release(w.store, k, w.runs[k].body, ending, now), lands, key);
    case Ticked(now, seen, lands) =>
      SaveRow(w.store, w.store.(cache := TickCache(w.store.cache, now, seen)), lands, key);
    case _ =>
  }

  predicate MarkFor(m: Mark, body: Body, h: Hash, until: nat) {
    m.body == body && m.hash == h && m.expiresAt >= until
  }

  /** On disk, and in memory while a process is up, the key stands for that payment. */
  ghost predicate Guarded(w: World, key: Key, body: Body, h: Hash, until: nat) {
    && key in w.store.row && MarkFor(w.store.row[key], body, h, until)
    && (w.up ==> StandingOf(w.store, key).Marked? && MarkFor(StandingOf(w.store, key).mark, body, h, until))
  }

  /** The node never reads the payment as over, to a request of the key or to a cleanup a day later. */
  predicate NotOver(a: Action, key: Key, h: Hash, until: nat) {
    && (a.Ticked? ==> a.now < until || ReadsLive(a.seen, h))
    && (a.Requested? && a.key == key ==> Possible(a.seen, h))
  }

  lemma StepGuards(w: World, a: Action, w': World, key: Key, body: Body, h: Hash, until: nat)
    requires Safe(w) && BodiesMatch(w) && Step(w, a, w') && Guarded(w, key, body, h, until) && NotOver(a, key, h, until)
    ensures Guarded(w', key, body, h, until)
  {
    SafeApart(w);
    StepStands(w, a, w', key);
    if w.up && w'.up {
      GuardedAfter(w, a, key, body, h, until);
    }
    hide Safe, Arrive, StandingOf, Finish, Tick, Announce, LivePayment, ReadsSafely, BodiesMatch;
    StepRow(w, a, w', key);
  }

  lemma GuardedAfter(w: World, a: Action, key: Key, body: Body, h: Hash, until: nat)
    requires Guarded(w, key, body, h, until) && NotOver(a, key, h, until) && w.up && !a.Crashed? && !a.Booted?
    ensures After(w, a, key).Marked? && MarkFor(After(w, a, key).mark, body, h, until)
  {
    hide StandingOf;
  }

  lemma {:induction false} RunGuards(ws: seq<World>, acts: seq<Action>, j: nat, i: nat)
    requires IsRun(ws, acts) && j < i < |ws| && acts[j].Finished? && acts[j].ending.TimedOut? && acts[j].lands
    requires acts[j].key.route == OfferPay || acts[j].key.route == Keysend
    requires forall k :: j < k < i ==> NotOver(acts[k], acts[j].key, acts[j].ending.hash, acts[j].now + TTL_MS)
    ensures acts[j].key in ws[j].runs
    ensures Guarded(ws[i], acts[j].key, ws[j].runs[acts[j].key].body, acts[j].ending.hash, acts[j].now + TTL_MS)
    decreases i
  {
    hide Safe, Guarded, Arrive, NotOver;
    assert Step(ws[j], acts[j], ws[j + 1]) && Step(ws[i - 1], acts[i - 1], ws[i]);
    if j == i - 1 {
      RunIsSafe(ws, acts, j);
      TimeoutGuards(ws[j], acts[j], ws[i]);
    } else {
      hide Step;
      RunGuards(ws, acts, j, i - 1);
      RunIsSafe(ws, acts, i - 1);
      RunBodies(ws, acts, i - 1);
      StepGuards(ws[i - 1], acts[i - 1], ws[i], acts[j].key, ws[j].runs[acts[j].key].body, acts[j].ending.hash,
                 acts[j].now + TTL_MS);
    }
  }

  lemma TimeoutGuards(w: World, a: Action, w': World)
    requires Safe(w) && Step(w, a, w') && a.Finished? && a.ending.TimedOut? && a.lands
    requires a.key.route == OfferPay || a.key.route == Keysend
    ensures a.key in w.runs && Guarded(w', a.key, w.runs[a.key].body, a.ending.hash, a.now + TTL_MS)
  {
    SafeApart(w);
    hide Safe, SavedRow, LivePayment;
    SavedHas(Release(w.store, a.key, w.runs[a.key].body, a.ending, a.now).cache,
             Release(w.store, a.key, w.runs[a.key].body, a.ending, a.now).markers, a.key);
  }

  /**
   * Once a payment's handler timed out and its marker is stored, and as long as
   * the node never reads it as over, every request with the key is answered for
   * that payment, across crashes and restarts; no handler of the key starts.
   */
  lemma TimedOutIsReplayed(
      ws: seq<World>, acts: seq<Action>, j: nat, i: nat, body: Body, seen: Outcomes, paid: set<Hash>, lands: bool)
    requires IsRun(ws, acts) && j < i < |ws| && acts[j].Finished? && acts[j].ending.TimedOut? && acts[j].lands
    requires acts[j].key.route == OfferPay || acts[j].key.route == Keysend
    requires forall k :: j < k < i ==> NotOver(acts[k], acts[j].key, acts[j].ending.hash, acts[j].now + TTL_MS)
    requires ws[i].up && Possible(seen, acts[j].ending.hash)
    ensures acts[j].key in ws[j].runs
    ensures var h := acts[j].ending.hash;
      Arrive(ws[i].store, acts[j].key, body, seen, paid, lands)
      == (ws[i].store, if body != ws[j].runs[acts[j].key].body then Conflict
                       else if seen[h] == Settled && h in paid then Paid(h) else StillOut(h))
    ensures forall k :: j < k < i ==> !StartsHandler(ws[k], acts[k], acts[j].key)
  {
    RunGuards(ws, acts, j, i);
    hide Step;
    forall k | j < k < i ensures !StartsHandler(ws[k], acts[k], acts[j].key) {
      assert NotOver(acts[k], acts[j].key, acts[j].ending.hash, acts[j].now + TTL_MS);
      RunGuards(ws, acts, j, k);
      NoStart(ws, acts, k, acts[j].key, ws[j].runs[acts[j].key].body, acts[j].ending.hash, acts[j].now + TTL_MS);
    }
  }

  lemma NoStart(ws: seq<World>, acts: seq<Action>, k: nat, key: Key, body: Body, h: Hash, until: nat)
    requires IsRun(ws, acts) && k < |acts| && Guarded(ws[k], key, body, h, until) && NotOver(acts[k], key, h, until)
    ensures !StartsHandler(ws[k], acts[k], key)
  {
    if acts[k].Requested? && acts[k].key == key {
      assert Step(ws[k], acts[k], ws[k + 1]);
    }
  }
}
