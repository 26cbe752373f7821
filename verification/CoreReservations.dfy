/**
 * Coin reservations of the Bitcoin Core adapter (src/direct-funding/bitcoin-core.ts):
 * a durable journal around a lock RPC whose reply may be lost.
 *
 * freezeUtxo and unfreezeUtxo run one at a time. Each is cut into the stretches
 * between its awaits; the process may stop before any of them. A save either
 * lands, or throws having landed or not. `Adapter` is the code, and each of its
 * methods walks a path of these steps.
 */
module CoreReservations {

  datatype Outpoint = Outpoint(txid: nat, vout: nat)

  datatype Reservation = Acquiring | Owned | Releasing

  /** Where the running operation waits. */
  datatype Phase =
    | Idle
    | Intent(o: Outpoint)                   // the acquisition is journalled, the lock not yet requested
    | Requested(o: Outpoint, taken: bool)   // Core has run the request, its reply is on the way
    | Acquired(o: Outpoint)                 // Core acknowledged the lock
    | Unsure(o: Outpoint)                   // refused, or the reply was lost
    | Letting(o: Outpoint)                  // the release is journalled
    | Unlocking(o: Outpoint)                // Core holds the lock, an unlock is to be sent
    | Unlocked(o: Outpoint)                 // the unlock was sent, its effect unknown

  datatype SaveResult = Saved | ThrewUnsaved | ThrewSaved

  /**
   * `core`: the coins Core holds locked. `mine`: those of them this adapter's
   * requests locked. `asked`: the coins with a request that Core has not run, and
   * may still run; `late`: the coins such a request locked. `acked`: the coins
   * whose last lock request Core acknowledged.
   */
  datatype World = World(
    core: set<Outpoint>,
    mine: set<Outpoint>,
    asked: set<Outpoint>,
    late: set<Outpoint>,
    acked: set<Outpoint>,
    journal: map<Outpoint, Reservation>,
    up: bool,
    reservations: map<Outpoint, Reservation>,
    phase: Phase)

  predicate Has(m: map<Outpoint, Reservation>, o: Outpoint, s: Reservation) {
    o in m && m[o] == s
  }

  function Journalled(before: map<Outpoint, Reservation>, now: map<Outpoint, Reservation>, save: SaveResult)
    : (j: map<Outpoint, Reservation>)
  {
    if save == ThrewUnsaved then before else now
  }

  // ----- freezeUtxo -----

  predicate MayAcquire(w: World, o: Outpoint, known: bool) {
    (o in w.reservations ==> w.reservations[o] == Owned) && o !in w.core && known
  }

  /** From the first lock list to the journalled intent. `known`: the wallet lists the coin. */
  function BeginFreeze(w: World, o: Outpoint, known: bool, save: SaveResult): (w': World) {
    if !MayAcquire(w, o, known) then w
    else
      var intent := w.reservations[o := Acquiring];
      var journal := Journalled(w.journal, intent, save);
      if save == Saved then w.(reservations := intent, journal := journal, phase := Intent(o))
      else w.(journal := journal)
  }

  /** What an immediate answer of freezeUtxo is, when it does not go on to lock. */
  function FreezeAnswer(w: World, o: Outpoint): bool {
    o in w.core && Has(w.reservations, o, Owned)
  }

  /** Core runs the lock request, or refuses it. */
  function RunLock(w: World, o: Outpoint, takes: bool): (w': World) {
    var took := takes && o !in w.core;
    w.(core := if took then w.core + {o} else w.core,
       mine := if took then w.mine + {o} else w.mine,
       asked := if took then w.asked else w.asked + {o},
       acked := w.acked - {o},
       phase := Requested(o, took))
  }

  function LockReply(w: World, o: Outpoint, taken: bool, lost: bool): (w': World) {
    if taken && !lost then w.(acked := w.acked + {o}, phase := Acquired(o)) else w.(phase := Unsure(o))
  }

  function ConfirmOwned(w: World, o: Outpoint, save: SaveResult): (w': World) {
    var owned := w.reservations[o := Owned];
    w.(journal := Journalled(w.journal, owned, save), phase := Idle,
       reservations := if save == Saved then owned else w.reservations[o := Acquiring])
  }

  /** An unsure acquisition is dropped only when Core is seen not to hold it. */
  function Reconcile(w: World, o: Outpoint, read: bool, save: SaveResult): (w': World) {
    if !read || o in w.core then w.(phase := Idle)
    else
      var without := w.reservations - {o};
      w.(reservations := without, journal := Journalled(w.journal, without, save), phase := Idle)
  }

  // ----- unfreezeUtxo -----

  function BeginRelease(w: World, o: Outpoint, save: SaveResult): (w': World) {
    if o !in w.reservations || w.reservations[o] == Acquiring then w
    else
      var releasing := w.reservations[o := Releasing];
      w.(reservations := releasing, journal := Journalled(w.journal, releasing, save),
         phase := if save == Saved then Letting(o) else Idle)
  }

  /** The reservation goes once Core is seen not to hold the lock. */
  function Drop(w: World, o: Outpoint, save: SaveResult): (w': World) {
    var without := w.reservations - {o};
    w.(journal := Journalled(w.journal, without, save), phase := Idle,
       reservations := if save == Saved then without else w.reservations)
  }

  function CheckLock(w: World, o: Outpoint, read: bool, save: SaveResult): (w': World) {
    if !read then w.(phase := Idle) else if o in w.core then w.(phase := Unlocking(o)) else Drop(w, o, save)
  }

  function RunUnlock(w: World, o: Outpoint, takes: bool): (w': World) {
    w.(core := if takes then w.core - {o} else w.core,
       mine := if takes then w.mine - {o} else w.mine,
       late := if takes then w.late - {o} else w.late,
       phase := Unlocked(o))
  }

  function AfterUnlock(w: World, o: Outpoint, read: bool, save: SaveResult): (w': World) {
    if !read || o in w.core then w.(phase := Idle) else Drop(w, o, save)
  }

  // ----- steps -----

  datatype Step =
    | Freeze(o: Outpoint, known: bool, save: SaveResult)
    | Lock(takes: bool)
    | Reply(lost: bool)
    | Confirm(save: SaveResult)
    | Settle(read: bool, save: SaveResult)
    | Unfreeze(o: Outpoint, save: SaveResult)
    | Check(read: bool, save: SaveResult)
    | Unlock(takes: bool)
    | Recheck(read: bool, save: SaveResult)
    | Crash
    | Restart
    | LateLock(o: Outpoint)
    | ForeignLock(o: Outpoint)
    | LockVanishes(o: Outpoint)

  /** No other lock manager races the adapter: others touch only coins it has not reserved. */
  ghost predicate Next(w: World, s: Step, w': World) {
    match s
    case Freeze(o, known, save) => w.up && w.phase == Idle && w' == BeginFreeze(w, o, known, save)
    case Lock(takes) => w.up && w.phase.Intent? && w' == RunLock(w, w.phase.o, takes)
    case Reply(lost) => w.up && w.phase.Requested? && w' == LockReply(w, w.phase.o, w.phase.taken, lost)
    case Confirm(save) => w.up && w.phase.Acquired? && w' == ConfirmOwned(w, w.phase.o, save)
    case Settle(read, save) => w.up && w.phase.Unsure? && w' == Reconcile(w, w.phase.o, read, save)
    case Unfreeze(o, save) => w.up && w.phase == Idle && w' == BeginRelease(w, o, save)
    case Check(read, save) => w.up && w.phase.Letting? && w' == CheckLock(w, w.phase.o, read, save)
    case Unlock(takes) => w.up && w.phase.Unlocking? && w' == RunUnlock(w, w.phase.o, takes)
    case Recheck(read, save) => w.up && w.phase.Unlocked? && w' == AfterUnlock(w, w.phase.o, read, save)
    case Crash => w.up && w' == w.(up := false, reservations := map[], phase := Idle)
    case Restart => !w.up && w' == w.(up := true, reservations := w.journal)
    case LateLock(o) =>
      o in w.asked && o !in w.core
      && w' == w.(core := w.core + {o}, late := w.late + {o}, asked := w.asked - {o})
    case ForeignLock(o) =>
      o !in w.reservations && o !in w.journal && w' == w.(core := w.core + {o})
    case LockVanishes(o) => w' == w.(core := w.core - {o}, mine := w.mine - {o}, late := w.late - {o})
  }

  // ----- what every step keeps -----

  /** What must survive a stop at any point. */
  ghost predicate Recoverable(w: World) {
    && w.mine <= w.core && w.late <= w.core && w.mine !! w.late
    && (forall o :: o in w.mine ==> o in w.journal)
    && (forall o :: o in w.journal && w.journal[o] != Acquiring ==> o in w.acked)
    && (forall o :: o in w.journal && o in w.core ==> o in w.mine || o in w.late)
  }

  /** Memory covers every lock taken, and claims none Core did not acknowledge. */
  ghost predicate Tracked(w: World) {
    w.up ==>
      && (forall o :: o in w.mine ==> o in w.reservations)
      && (forall o :: o in w.reservations && w.reservations[o] != Acquiring ==> o in w.acked)
      && (forall o :: Has(w.reservations, o, Owned) && o in w.mine ==> Has(w.journal, o, Owned))
      && (forall o :: o in w.reservations && o in w.core ==> o in w.mine || o in w.late)
  }

  ghost predicate InPhase(w: World) {
    && (!w.up ==> w.phase == Idle && w.reservations == map[])
    && match w.phase
       case Idle => true
       case Intent(o) => Has(w.reservations, o, Acquiring) && Has(w.journal, o, Acquiring)
       case Requested(o, taken) => Has(w.reservations, o, Acquiring) && Has(w.journal, o, Acquiring)
       case Acquired(o) => Has(w.reservations, o, Acquiring) && Has(w.journal, o, Acquiring) && o in w.acked
       case Unsure(o) => Has(w.reservations, o, Acquiring) && Has(w.journal, o, Acquiring)
       case Letting(o) => Has(w.reservations, o, Releasing) && Has(w.journal, o, Releasing)
       case Unlocking(o) => Has(w.reservations, o, Releasing) && Has(w.journal, o, Releasing)
       case Unlocked(o) => Has(w.reservations, o, Releasing) && Has(w.journal, o, Releasing)
  }

  ghost predicate Safe(w: World) {
    Recoverable(w) && Tracked(w) && InPhase(w)
  }

  lemma BeginFreezeKeeps(w: World, o: Outpoint, known: bool, save: SaveResult)
    requires Safe(w) && w.up && w.phase == Idle
    ensures Safe(BeginFreeze(w, o, known, save))
  {
  }

  lemma LockKeeps(w: World, o: Outpoint, takes: bool)
    requires Safe(w) && w.up && w.phase == Intent(o)
    ensures Safe(RunLock(w, o, takes))
  {
  }

  lemma ReplyKeeps(w: World, o: Outpoint, taken: bool, lost: bool)
    requires Safe(w) && w.up && w.phase == Requested(o, taken)
    ensures Safe(LockReply(w, o, taken, lost))
  {
  }

  lemma ConfirmKeeps(w: World, o: Outpoint, save: SaveResult)
    requires Safe(w) && w.up && w.phase == Acquired(o)
    ensures Safe(ConfirmOwned(w, o, save))
  {
  }

  lemma ReconcileKeeps(w: World, o: Outpoint, read: bool, save: SaveResult)
    requires Safe(w) && w.up && w.phase == Unsure(o)
    ensures Safe(Reconcile(w, o, read, save))
  {
  }

  lemma BeginReleaseKeeps(w: World, o: Outpoint, save: SaveResult)
    requires Safe(w) && w.up && w.phase == Idle
    ensures Safe(BeginRelease(w, o, save))
  {
  }

  lemma DropKeeps(w: World, o: Outpoint, save: SaveResult)
    requires Safe(w) && w.up && Has(w.reservations, o, Releasing) && o !in w.core
    ensures Safe(Drop(w, o, save))
  {
  }

  lemma UnlockKeeps(w: World, o: Outpoint, takes: bool)
    requires Safe(w) && w.up && w.phase == Unlocking(o)
    ensures Safe(RunUnlock(w, o, takes))
  {
  }

  lemma OutsideKeeps(w: World, s: Step, w': World)
    requires Safe(w) && Next(w, s, w') && (s.Crash? || s.Restart? || s.LateLock? || s.ForeignLock? || s.LockVanishes?)
    ensures Safe(w')
  {
  }

  /** Every step, a crash included, keeps the locks journalled and the claims honest. */
  lemma StepKeeps(w: World, s: Step, w': World)
    requires Safe(w) && Next(w, s, w')
    ensures Safe(w')
  {
    hide Recoverable, Tracked;
    hide BeginFreeze, RunLock, LockReply, ConfirmOwned, Reconcile, BeginRelease, RunUnlock, Drop;
    match s
    case Freeze(o, known, save) => BeginFreezeKeeps(w, o, known, save);
    case Lock(takes) => LockKeeps(w, w.phase.o, takes);
    case Reply(lost) => ReplyKeeps(w, w.phase.o, w.phase.taken, lost);
    case Confirm(save) => ConfirmKeeps(w, w.phase.o, save);
    case Settle(read, save) => ReconcileKeeps(w, w.phase.o, read, save);
    case Unfreeze(o, save) => BeginReleaseKeeps(w, o, save);
    case Check(read, save) => CheckKeeps(w, w.phase.o, read, save);
    case Unlock(takes) => UnlockKeeps(w, w.phase.o, takes);
    case Recheck(read, save) => RecheckKeeps(w, w.phase.o, read, save);
    case _ => OutsideKeeps(w, s, w');
  }

  lemma CheckKeeps(w: World, o: Outpoint, read: bool, save: SaveResult)
    requires Safe(w) && w.up && w.phase == Letting(o)
    ensures Safe(CheckLock(w, o, read, save))
  {
    hide Drop;
    if read && o !in w.core {
      DropKeeps(w, o, save);
    }
  }

  lemma RecheckKeeps(w: World, o: Outpoint, read: bool, save: SaveResult)
    requires Safe(w) && w.up && w.phase == Unlocked(o)
    ensures Safe(AfterUnlock(w, o, read, save))
  {
    hide Drop;
    if read && o !in w.core {
      DropKeeps(w, o, save);
    }
  }

  // ----- whole runs -----

  /** No reservation yet: an empty journal, and whatever locks others hold. */
  ghost predicate Initial(w: World) {
    w.mine == {} && w.asked == {} && w.late == {} && w.acked == {} && w.journal == map[] && w.reservations == map[] && w.phase == Idle
  }

  ghost predicate Run(ws: seq<World>, steps: seq<Step>) {
    && |ws| == |steps| + 1
    && Initial(ws[0])
    && (forall i :: 0 <= i < |steps| ==> Next(ws[i], steps[i], ws[i + 1]))
  }

  lemma {:induction false} RunIsSafe(ws: seq<World>, steps: seq<Step>, i: nat)
    requires Run(ws, steps) && i < |ws|
    ensures Safe(ws[i])
  {
    if i > 0 {
      RunIsSafe(ws, steps, i - 1);
      StepKeeps(ws[i - 1], steps[i - 1], ws[i]);
    }
  }

  /** At every point of every run, a lock this adapter took is held by Core and is in the journal. */
  lemma LocksAreJournalled(ws: seq<World>, steps: seq<Step>, i: nat, o: Outpoint)
    requires Run(ws, steps) && i < |ws| && o in ws[i].mine
    ensures o in ws[i].core && o in ws[i].journal
  {
    RunIsSafe(ws, steps, i);
  }

  /** Core's acknowledgement of a lock on `o`, as it reaches the adapter at step `j`. */
  ghost predicate Acknowledged(ws: seq<World>, steps: seq<Step>, o: Outpoint, j: nat)
    requires |ws| == |steps| + 1
  {
    j < |steps| && steps[j] == Reply(false) && ws[j].phase == Requested(o, true)
  }

  ghost predicate AsksLock(ws: seq<World>, steps: seq<Step>, o: Outpoint, k: nat)
    requires |ws| == |steps| + 1
  {
    k < |steps| && steps[k].Lock? && ws[k].phase == Intent(o)
  }

  /** `acked` is the history it stands for: an acknowledgement, and no lock request since. */
  lemma {:induction false} AckedMeansAcknowledged(ws: seq<World>, steps: seq<Step>, i: nat, o: Outpoint) returns (j: nat)
    requires Run(ws, steps) && i < |ws| && o in ws[i].acked
    ensures j < i && Acknowledged(ws, steps, o, j)
    ensures forall k :: j < k < i ==> !AsksLock(ws, steps, o, k)
  {
    var s := steps[i - 1];
    assert Next(ws[i - 1], s, ws[i]);
    if o in ws[i - 1].acked {
      j := AckedMeansAcknowledged(ws, steps, i - 1, o);
      assert !AsksLock(ws, steps, o, i - 1);
    } else {
      j := i - 1;
    }
  }

  /** An unlock is sent only for a lock of the adapter's own that Core acknowledged and that was not asked for again. */
  lemma UnlockOnlyAcknowledged(ws: seq<World>, steps: seq<Step>, i: nat) returns (j: nat)
    requires Run(ws, steps) && i < |steps| && steps[i].Unlock?
    ensures ws[i].phase.Unlocking?
    ensures j < i && Acknowledged(ws, steps, ws[i].phase.o, j)
    ensures forall k :: j < k < i ==> !AsksLock(ws, steps, ws[i].phase.o, k)
    ensures ws[i + 1].core == ws[i].core || ws[i].phase.o in ws[i].mine || ws[i].phase.o in ws[i].late
  {
    RunIsSafe(ws, steps, i);
    assert Next(ws[i], steps[i], ws[i + 1]);
    var o := ws[i].phase.o;
    j := AckedMeansAcknowledged(ws, steps, i, o);
  }

  /** No step takes away a lock that others placed. */
  lemma ForeignLocksStay(ws: seq<World>, steps: seq<Step>, i: nat, o: Outpoint)
    requires Run(ws, steps) && i < |steps| && !steps[i].LockVanishes?
    requires o in ws[i].core && o !in ws[i].mine && o !in ws[i].late
    ensures o in ws[i + 1].core && o !in ws[i + 1].mine && o !in ws[i + 1].late
  {
    RunIsSafe(ws, steps, i);
    assert Next(ws[i], steps[i], ws[i + 1]);
  }

  /** A quarantined acquisition is neither adopted nor unlocked: it stays until Core is seen without the lock. */
  lemma QuarantineHolds(ws: seq<World>, steps: seq<Step>, i: nat, o: Outpoint)
    requires Run(ws, steps) && i < |steps| && ws[i].up && ws[i].phase == Idle && !steps[i].LockVanishes?
    requires Has(ws[i].reservations, o, Acquiring) && o in ws[i].mine
    ensures o in ws[i + 1].mine && o in ws[i + 1].journal
    ensures ws[i + 1].up ==> Has(ws[i + 1].reservations, o, Acquiring)
  {
    RunIsSafe(ws, steps, i);
    assert Next(ws[i], steps[i], ws[i + 1]);
    StepKeeps(ws[i], steps[i], ws[i + 1]);
  }

  // ----- a request that runs late -----

  /** The record a process goes by: its memory, or the journal it will read. */
  ghost predicate Recorded(w: World, o: Outpoint) {
    if w.up then o in w.reservations else o in w.journal
  }

  /** Locked in Core by this adapter's request, and no longer on record. */
  ghost predicate Forgotten(w: World, o: Outpoint) {
    o in w.late && !Recorded(w, o)
  }

  /**
   * A lock of the adapter's is forgotten exactly by landing late on a coin whose
   * reservation is gone, or by a crash when only memory had it. Nothing but its
   * vanishing, or a crash that brings back a journal still holding it, ends that.
   */
  lemma ForgottenExactly(ws: seq<World>, steps: seq<Step>, i: nat, o: Outpoint)
    requires Run(ws, steps) && i < |steps|
    ensures Forgotten(ws[i + 1], o) <==>
      if steps[i].Crash? then o in ws[i].late && o !in ws[i].journal
      else if steps[i] == LateLock(o) then !Recorded(ws[i], o)
      else Forgotten(ws[i], o) && steps[i] != LockVanishes(o)
  {
    RunIsSafe(ws, steps, i);
    assert Next(ws[i], steps[i], ws[i + 1]);
  }

  /** The reply is lost, Core is seen without the lock, the reservation is dropped, and the request runs. */
  lemma LateLockForgotten(o: Outpoint) returns (ws: seq<World>, steps: seq<Step>)
    ensures Run(ws, steps) && Forgotten(ws[|steps|], o) && o !in ws[|steps|].journal
    ensures forall i :: 0 <= i < |steps| ==> !steps[i].Crash? && !steps[i].ForeignLock? && !steps[i].LockVanishes?
  {
    var w0 := World({}, {}, {}, {}, {}, map[], true, map[], Idle);
    var w1 := BeginFreeze(w0, o, true, Saved);
    var w2 := RunLock(w1, o, false);
    var w3 := LockReply(w2, o, false, true);
    var w4 := Reconcile(w3, o, true, Saved);
    var w5 := w4.(core := w4.core + {o}, late := w4.late + {o}, asked := w4.asked - {o});
    ws := [w0, w1, w2, w3, w4, w5];
    steps := [Freeze(o, true, Saved), Lock(false), Reply(true), Settle(true, Saved), LateLock(o)];
  }

  // ----- the code -----

  ghost predicate Linked(w: World, w': World) {
    exists s :: Next(w, s, w')
  }

  /** A path of steps, so that a stop after any of them is one of the crash points above. */
  ghost predicate Walk(path: seq<World>, from: World, to: World) {
    && |path| > 0 && path[0] == from && path[|path| - 1] == to
    && (forall i :: 0 <= i < |path| - 1 ==> Linked(path[i], path[i + 1]))
  }

  lemma Extend(path: seq<World>, from: World, w: World, s: Step, w': World)
    requires Safe(w) && Walk(path, from, w) && Next(w, s, w')
    ensures Walk(path + [w'], from, w') && Safe(w')
  {
    hide Next, Safe;
    StepKeeps(w, s, w');
    assert Linked(w, w');
    var longer := path + [w'];
    forall i | 0 <= i < |longer| - 1 ensures Linked(longer[i], longer[i + 1]) {
      if i < |path| - 1 {
        assert Linked(path[i], path[i + 1]);
      }
    }
  }

  lemma OwnedIsHeld(w: World, o: Outpoint)
    requires Safe(w) && w.up && FreezeAnswer(w, o)
    ensures o in w.late || (o in w.mine && Has(w.journal, o, Owned))
  {
  }

  lemma Unreserved(w: World, o: Outpoint)
    requires Safe(w) && w.up
    ensures o !in w.reservations ==> o !in w.mine
  {
  }

  lemma Standing(w: World)
    ensures Walk([w], w, w)
  {
  }

  datatype Answer = Yes | No | Rejected

  /** How the lock list, the saves and the lock request of one freezeUtxo turn out. */
  datatype FreezeOutcome = FreezeOutcome(
    read: bool, intent: SaveResult, takes: bool, lost: bool, reread: bool, drop: SaveResult, owned: SaveResult)

  datatype ReleaseOutcome = ReleaseOutcome(
    intent: SaveResult, read: bool, takes: bool, reread: bool, drop: SaveResult)

  class Adapter {
    var w: World
    var locks: set<Outpoint>
    var coins: set<Outpoint>
    var spendable: set<Outpoint>

    /** A new process takes the journal for its reservations. */
    constructor (stored: World)
      requires Safe(stored) && !stored.up
      ensures Safe(w) && w.up && w.phase == Idle
      ensures Next(stored, Restart, w)
    {
      w := stored.(up := true, reservations := stored.journal);
      locks, coins, spendable := {}, {}, {};
      new;
      StepKeeps(stored, Restart, w);
    }

    /** The save may throw with the bytes written or not; only a save that returns is relied on. */
    method Persist(save: SaveResult) returns (threw: bool)
      modifies this`w
      ensures threw <==> save != Saved
      ensures w == old(w).(journal := Journalled(old(w).journal, old(w).reservations, save))
    {
      if save != ThrewUnsaved {
        w := w.(journal := w.reservations);
      }
      threw := save != Saved;
    }

    /** Yes means: Core holds the lock, the adapter took it, and, unless it landed late, 'owned' is on disk. */
    method FreezeUtxo(o: Outpoint, env: FreezeOutcome) returns (answer: Answer, ghost path: seq<World>)
      requires Safe(w) && w.up && w.phase == Idle
      modifies this`w, this`locks
      ensures Safe(w) && w.up && w.phase == Idle
      ensures Walk(path, old(w), w)
      ensures answer == Yes ==> o in w.core && Has(w.reservations, o, Owned)
      ensures answer == Yes && o !in old(w).late ==> o in w.mine && Has(w.journal, o, Owned)
      ensures answer == Yes <==>
        && env.read
        && (o in old(w).reservations ==> old(w).reservations[o] == Owned)
        && (if o in old(w).core then o in old(w).reservations
            else o in coins && env.intent == Saved && env.takes && !env.lost && env.owned == Saved)
      ensures answer == Rejected ==> !env.read && w == old(w)
      ensures var asks := && env.read && o !in old(w).core && o in coins && env.intent == Saved
                          && (o in old(w).reservations ==> old(w).reservations[o] == Owned);
        && (w.core == if asks && env.takes then old(w).core + {o} else old(w).core)
        && (w.reservations ==
              if !asks then old(w).reservations
              else if env.takes && !env.lost then old(w).reservations[o := if env.owned == Saved then Owned else Acquiring]
              else if env.reread && !env.takes then old(w).reservations - {o}
              else old(w).reservations[o := Acquiring])
    {
      hide Recoverable, Tracked, InPhase;
      path := [w];
      if o in w.reservations && w.reservations[o] != Owned {
        return No, path;
      }
      if !env.read {
        return Rejected, path;
      }
      locks := w.core;
      if o in locks {
        if o in w.reservations {
          OwnedIsHeld(w, o);
          return Yes, path;
        }
        return No, path;
      }
      if o !in coins {
        return No, path;
      }
      ghost var start := w;
      var previous := w.reservations;
      w := w.(reservations := w.reservations[o := Acquiring]);
      var threw := Persist(env.intent);
      if threw {
        w := w.(reservations := previous);
        Extend(path, start, start, Freeze(o, true, env.intent), w);
        return No, path + [w];
      }
      w := w.(phase := Intent(o));
      Extend(path, start, start, Freeze(o, true, env.intent), w);
      path := path + [w];
      var acquired;
      acquired, path := RequestLock(o, env, start, path);
      if !acquired {
        path := GiveUp(o, env, start, path);
        return No, path;
      }
      locks := locks + {o};
      threw, path := ConfirmLock(o, env.owned, start, path);
      return if threw then No else Yes, path;
    }

    /** 'owned' is acknowledged only once it is saved. */
    method ConfirmLock(o: Outpoint, save: SaveResult, ghost start: World, ghost path: seq<World>)
      returns (threw: bool, ghost path': seq<World>)
      requires Safe(w) && w.up && w.phase == Acquired(o) && Walk(path, start, w) && o in w.core && o in w.mine
      modifies this`w
      ensures Safe(w) && w.up && w.phase == Idle && Walk(path', start, w)
      ensures threw <==> save != Saved
      ensures w.core == old(w).core && w.reservations == old(w).reservations[o := if threw then Acquiring else Owned]
      ensures !threw ==> o in w.core && o in w.mine && Has(w.journal, o, Owned) && Has(w.reservations, o, Owned)
    {
      hide Recoverable, Tracked, Walk;
      ghost var before := w;
      w := w.(reservations := w.reservations[o := Owned], phase := Idle);
      threw := Persist(save);
      if threw {
        w := w.(reservations := w.reservations[o := Acquiring]);
      }
      assert threw ==> w.reservations == before.reservations[o := Acquiring];
      Extend(path, start, before, Confirm(save), w);
      path' := path + [w];
    }

    /** The lock request and its reply, which may be lost. */
    method RequestLock(o: Outpoint, env: FreezeOutcome, ghost start: World, ghost path: seq<World>)
      returns (acquired: bool, ghost path': seq<World>)
      requires Safe(w) && w.up && w.phase == Intent(o) && Walk(path, start, w) && o !in w.core
      modifies this`w
      ensures Safe(w) && w.up && w.phase == (if acquired then Acquired(o) else Unsure(o)) && Walk(path', start, w)
      ensures acquired <==> env.takes && !env.lost
      ensures acquired ==> o in w.core && o in w.mine
      ensures (w.core == if env.takes then old(w).core + {o} else old(w).core) && w.reservations == old(w).reservations
    {
      ghost var before := w;
      w := RunLock(w, o, env.takes);
      Extend(path, start, before, Lock(env.takes), w);
      ghost var sent := w;
      acquired := env.takes && !env.lost;
      w := LockReply(w, o, env.takes, env.lost);
      Extend(path + [sent], start, sent, Reply(env.lost), w);
      path' := path + [sent] + [w];
    }

    /** Not acquired for certain: the reservation goes only if Core is seen without the lock. */
    method GiveUp(o: Outpoint, env: FreezeOutcome, ghost start: World, ghost path: seq<World>)
      returns (ghost path': seq<World>)
      requires Safe(w) && w.up && w.phase == Unsure(o) && Walk(path, start, w)
      modifies this`w, this`locks
      ensures Safe(w) && w.up && w.phase == Idle && Walk(path', start, w)
      ensures o in w.mine ==> Has(w.reservations, o, Acquiring) && o in w.journal
      ensures w.core == old(w).core
      ensures w.reservations == if env.reread && o !in w.core then old(w).reservations - {o} else old(w).reservations
    {
      ghost var before := w;
      w := w.(phase := Idle);
      if env.reread {
        locks := w.core;
        if o !in locks {
          w := w.(reservations := w.reservations - {o});
          var _ := Persist(env.drop);
        }
      }
      Extend(path, start, before, Settle(env.reread, env.drop), w);
      path' := path + [w];
    }

    /** True means: no reservation is left and Core does not hold a lock of the adapter's on the coin. */
    method UnfreezeUtxo(o: Outpoint, env: ReleaseOutcome) returns (ok: bool, ghost path: seq<World>)
      requires Safe(w) && w.up && w.phase == Idle
      modifies this`w, this`locks
      ensures Safe(w) && w.up && w.phase == Idle
      ensures Walk(path, old(w), w)
      ensures ok ==> o !in w.reservations && o !in w.mine
      ensures ok && o in old(w).reservations ==> o !in w.journal && o !in w.core
      ensures ok <==>
        || o !in old(w).reservations
        || (&& old(w).reservations[o] != Acquiring && env.intent == Saved && env.read && env.drop == Saved
            && (o in old(w).core ==> env.takes && env.reread))
      ensures var lets := o in old(w).reservations && old(w).reservations[o] != Acquiring;
        && (w.core == if lets && env.intent == Saved && env.read && env.takes then old(w).core - {o} else old(w).core)
        && (w.reservations ==
              if !lets then old(w).reservations
              else if ok then old(w).reservations - {o} else old(w).reservations[o := Releasing])
    {
      hide Recoverable, Tracked, InPhase, Walk;
      Standing(w);
      path := [w];
      Unreserved(w, o);
      if o !in w.reservations {
        return true, path;
      }
      if w.reservations[o] == Acquiring {
        return false, path;
      }
      ghost var start := w;
      w := w.(reservations := w.reservations[o := Releasing]);
      var threw := Persist(env.intent);
      if !threw {
        w := w.(phase := Letting(o));
      }
      Extend(path, start, start, Unfreeze(o, env.intent), w);
      path := path + [w];
      if threw {
        return false, path;
      }
      ghost var before := w;
      if !env.read {
        w := w.(phase := Idle);
        Extend(path, start, before, Check(env.read, env.drop), w);
        return false, path + [w];
      }
      locks := w.core;
      if o in locks {
        w := w.(phase := Unlocking(o));
        Extend(path, start, before, Check(env.read, env.drop), w);
        ok, path := SendUnlock(o, env, start, path + [w]);
        Unreserved(w, o);
        return ok, path;
      }
      ok := DropReservation(o, env.drop);
      Extend(path, start, before, Check(env.read, env.drop), w);
      Unreserved(w, o);
      path := path + [w];
    }

    method SendUnlock(o: Outpoint, env: ReleaseOutcome, ghost start: World, ghost path: seq<World>)
      returns (ok: bool, ghost path': seq<World>)
      requires Safe(w) && w.up && w.phase == Unlocking(o) && Walk(path, start, w) && o in w.core
      modifies this`w, this`locks
      ensures Safe(w) && w.up && w.phase == Idle && Walk(path', start, w)
      ensures ok <==> env.takes && env.reread && env.drop == Saved
      ensures ok ==> o !in w.reservations && o !in w.journal && o !in w.core
      ensures w.core == if env.takes then old(w).core - {o} else old(w).core
      ensures w.reservations == if ok then old(w).reservations - {o} else old(w).reservations
    {
      hide Recoverable, Tracked, Walk;
      ghost var before := w;
      w := RunUnlock(w, o, env.takes);
      Extend(path, start, before, Unlock(env.takes), w);
      ghost var sent := w;
      path' := path + [w];
      if env.reread {
        locks := w.core;
        if o !in locks {
          ok := DropReservation(o, env.drop);
          Extend(path', start, sent, Recheck(env.reread, env.drop), w);
          return ok, path' + [w];
        }
      }
      w := w.(phase := Idle);
      Extend(path', start, sent, Recheck(env.reread, env.drop), w);
      return false, path' + [w];
    }

    method DropReservation(o: Outpoint, save: SaveResult) returns (ok: bool)
      modifies this`w
      ensures ok <==> save == Saved
      ensures w == Drop(old(w), o, save)
    {
      var entry := w.reservations;
      w := w.(reservations := w.reservations - {o}, phase := Idle);
      var threw := Persist(save);
      if threw {
        w := w.(reservations := entry);
      }
      ok := !threw;
    }

    /** What may be spent: a coin the adapter locked is never offered, however stale its list of locks. */
    function ListSpendable(): (s: set<Outpoint>)
      requires Safe(w) && w.up
      reads this
      ensures s <= spendable && s !! w.mine && s !! w.reservations.Keys
      ensures forall o :: o in spendable && o !in s ==> o in w.reservations || o in locks
    {
      set o | o in spendable && o !in w.reservations && o !in locks
    }
  }
}
