/**
 * The budgeted walk over the ranked primaries (src/cli/receive-steering.ts).
 *
 * What each candidate would do is given by `peers`; time passes only while a dial
 * or an attempt is awaited.
 */
module ReceiveSteering {

  datatype Option<T> = None | Some(value: T)

  datatype Code = Code(id: nat)

  /** Failed: a typed failure. Fault: anything else that was thrown. */
  datatype Outcome = Done | Failed(code: Code) | Fault

  datatype Peer = Peer(connected: bool, dial: Outcome, dialTook: real, attempt: Outcome, attemptTook: real)

  datatype Deps = Deps(
    canDial: bool, candidateCodes: set<Code>, notConnected: Code,
    budget: real, connectCap: real, attemptCap: real,
    lastConnectCap: Option<real>, lastAttemptCap: Option<real>, floor: real)

  datatype Stage = Connect | Attempt | Budget

  /** `who`: the candidate's place in the list. */
  datatype Skip = Skip(who: nat, stage: Stage, code: Option<Code>)

  datatype Result =
    | NoCandidates
    | Taken(winner: nat, skipped: seq<Skip>)
    | NoneAvailable(skipped: seq<Skip>)
    | Rethrown(at: nat, skipped: seq<Skip>)

  function Min(a: real, b: real): real { if a < b then a else b }

  function DialCap(d: Deps, last: bool, left: real): real {
    Min(left, if last then (if d.lastConnectCap.Some? then d.lastConnectCap.value else left) else d.connectCap)
  }

  function AttemptCap(d: Deps, last: bool, left: real): real {
    Min(left, if last then (if d.lastAttemptCap.Some? then d.lastAttemptCap.value else left) else d.attemptCap)
  }

  // ----- the clock -----

  predicate NeedsDial(p: Peer) { !p.connected }

  /** The candidate gets as far as its attempt, the budget allowing. */
  predicate Reachable(d: Deps, p: Peer) {
    NeedsDial(p) ==> d.canDial && p.dial == Done
  }

  /** What a candidate the budget lets through costs. */
  function Spent(d: Deps, p: Peer): real {
    if !NeedsDial(p) then p.attemptTook
    else if !d.canDial then 0.0
    else if p.dial != Done then p.dialTook
    else p.dialTook + p.attemptTook
  }

  /** The time on the clock when the walk comes to candidate `i`. */
  ghost function Start(d: Deps, peers: seq<Peer>, i: nat): real
    requires i <= |peers|
  {
    if i == 0 then 0.0 else Start(d, peers, i - 1) + Spent(d, peers[i - 1])
  }

  /** The time on the clock when its attempt would begin. */
  ghost function AttemptStart(d: Deps, peers: seq<Peer>, i: nat): real
    requires i < |peers|
  {
    Start(d, peers, i) + if NeedsDial(peers[i]) then peers[i].dialTook else 0.0
  }

  // ----- what becomes of a candidate -----

  ghost predicate OutBefore(d: Deps, peers: seq<Peer>, i: nat)
    requires i < |peers|
  {
    d.budget - Start(d, peers, i) < d.floor
  }

  ghost predicate Dials(d: Deps, peers: seq<Peer>, i: nat)
    requires i < |peers|
  {
    !OutBefore(d, peers, i) && NeedsDial(peers[i]) && d.canDial
  }

  /** Dialed, and too little left for the attempt. */
  ghost predicate OutAfterDial(d: Deps, peers: seq<Peer>, i: nat)
    requires i < |peers|
  {
    Dials(d, peers, i) && peers[i].dial == Done && d.budget - AttemptStart(d, peers, i) < d.floor
  }

  ghost predicate RunsOut(d: Deps, peers: seq<Peer>, i: nat)
    requires i < |peers|
  {
    OutBefore(d, peers, i) || OutAfterDial(d, peers, i)
  }

  ghost predicate Attempts(d: Deps, peers: seq<Peer>, i: nat)
    requires i < |peers|
  {
    !RunsOut(d, peers, i) && Reachable(d, peers[i])
  }

  ghost predicate Wins(d: Deps, peers: seq<Peer>, i: nat)
    requires i < |peers|
  {
    Attempts(d, peers, i) && peers[i].attempt == Done
  }

  /** A failure that is not the candidate's own. */
  ghost predicate Faults(d: Deps, peers: seq<Peer>, i: nat)
    requires i < |peers|
  {
    || (Dials(d, peers, i) && peers[i].dial == Fault)
    || (Attempts(d, peers, i) &&
        (peers[i].attempt == Fault || (peers[i].attempt.Failed? && peers[i].attempt.code !in d.candidateCodes)))
  }

  /** Tried within the budget, and passed over for a reason of its own. */
  ghost predicate Passes(d: Deps, peers: seq<Peer>, i: nat)
    requires i < |peers|
  {
    || (!OutBefore(d, peers, i) && NeedsDial(peers[i]) && (!d.canDial || peers[i].dial.Failed?))
    || (Attempts(d, peers, i) && peers[i].attempt.Failed? && peers[i].attempt.code in d.candidateCodes)
  }

  /** Exactly one of the four becomes of a candidate the walk comes to. */
  lemma OneFate(d: Deps, peers: seq<Peer>, i: nat)
    requires i < |peers|
    ensures Passes(d, peers, i) || Wins(d, peers, i) || Faults(d, peers, i) || RunsOut(d, peers, i)
    ensures Passes(d, peers, i) ==> !Wins(d, peers, i) && !Faults(d, peers, i) && !RunsOut(d, peers, i)
    ensures Wins(d, peers, i) ==> !Faults(d, peers, i) && !RunsOut(d, peers, i)
    ensures Faults(d, peers, i) ==> !RunsOut(d, peers, i)
  {
  }

  /** The walk passes over every candidate before `i`. */
  ghost predicate WalksTo(d: Deps, peers: seq<Peer>, i: nat)
    requires i <= |peers|
  {
    forall j :: 0 <= j < i ==> Passes(d, peers, j)
  }

  /** Where the walk ends: the first candidate it does not pass over, or the end of the list. */
  ghost function Stop(d: Deps, peers: seq<Peer>, from: nat := 0): (i: nat)
    requires from <= |peers|
    ensures from <= i <= |peers| && (i < |peers| ==> !Passes(d, peers, i))
    ensures forall j :: from <= j < i ==> Passes(d, peers, j)
    decreases |peers| - from
  {
    if from == |peers| || !Passes(d, peers, from) then from else Stop(d, peers, from + 1)
  }

  lemma {:induction false} StopUnique(d: Deps, peers: seq<Peer>, from: nat, i: nat)
    requires from <= i <= |peers| && (i < |peers| ==> !Passes(d, peers, i))
    requires forall j :: from <= j < i ==> Passes(d, peers, j)
    ensures Stop(d, peers, from) == i
    decreases i - from
  {
    if from < i {
      StopUnique(d, peers, from + 1, i);
    }
  }

  /** The time on the clock once candidate `i` is done with. */
  ghost function TimeAfter(d: Deps, peers: seq<Peer>, i: nat): real
    requires i < |peers|
  {
    if OutBefore(d, peers, i) then Start(d, peers, i)
    else if OutAfterDial(d, peers, i) then AttemptStart(d, peers, i)
    else Start(d, peers, i) + Spent(d, peers[i])
  }

  /** How long the whole walk takes. */
  ghost function Duration(d: Deps, peers: seq<Peer>): real {
    var i := Stop(d, peers);
    if i == |peers| then Start(d, peers, i) else TimeAfter(d, peers, i)
  }

  // ----- the skips -----

  /** The reason recorded is the candidate's own. */
  ghost predicate Explained(d: Deps, peers: seq<Peer>, j: nat, s: Skip) {
    && j < |peers| && s.who == j
    && match s.stage
       case Connect =>
         && NeedsDial(peers[j])
         && (d.canDial ==> peers[j].dial.Failed? && s.code == Some(peers[j].dial.code))
         && (!d.canDial ==> s.code == Some(d.notConnected))
       case Attempt =>
         && Reachable(d, peers[j]) && peers[j].attempt.Failed?
         && s.code == Some(peers[j].attempt.code) && peers[j].attempt.code in d.candidateCodes
       case Budget => s.code == None
  }

  /** Each candidate listed once, in order, with its reason; from `stop` on, and only there, the budget. */
  ghost predicate Accounted(d: Deps, peers: seq<Peer>, skipped: seq<Skip>, stop: nat) {
    forall j :: 0 <= j < |skipped| ==>
      Explained(d, peers, j, skipped[j]) && (skipped[j].stage == Budget <==> j >= stop)
  }

  // ----- keeping within the caps -----

  ghost predicate CapsOk(d: Deps) { d.connectCap >= 0.0 && d.attemptCap >= 0.0 }

  /** The calls made to candidate `i` end within the caps they were given. */
  ghost predicate CallsHonour(d: Deps, peers: seq<Peer>, i: nat)
    requires i < |peers|
  {
    var last := i + 1 == |peers|;
    && (Dials(d, peers, i) ==>
          0.0 <= peers[i].dialTook <= DialCap(d, last, d.budget - Start(d, peers, i)))
    && (Attempts(d, peers, i) ==>
          0.0 <= peers[i].attemptTook <= AttemptCap(d, last, d.budget - AttemptStart(d, peers, i)))
  }

  ghost predicate HonoursCaps(d: Deps, peers: seq<Peer>) {
    forall i :: 0 <= i < |peers| && WalksTo(d, peers, i) ==> CallsHonour(d, peers, i)
  }

  /** If every call keeps within its cap, the clock never passes the budget. */
  lemma {:induction false} StartWithinBudget(d: Deps, peers: seq<Peer>, i: nat)
    requires HonoursCaps(d, peers) && i <= |peers| && WalksTo(d, peers, i)
    ensures 0.0 <= Start(d, peers, i) && (Start(d, peers, i) == 0.0 || Start(d, peers, i) <= d.budget)
  {
    if i > 0 {
      StartWithinBudget(d, peers, i - 1);
      assert WalksTo(d, peers, i - 1) && CallsHonour(d, peers, i - 1) && Passes(d, peers, i - 1);
    }
  }

  /** The whole walk stays within the budget. */
  lemma WithinBudget(d: Deps, peers: seq<Peer>)
    requires HonoursCaps(d, peers)
    ensures Duration(d, peers) == 0.0 || Duration(d, peers) <= d.budget
  {
    var i := Stop(d, peers);
    assert WalksTo(d, peers, i);
    StartWithinBudget(d, peers, i);
    if i < |peers| {
      assert CallsHonour(d, peers, i);
      OneFate(d, peers, i);
    }
  }

  // ----- reaching a candidate -----

  /** What one candidate that is not the last may cost. */
  function Share(d: Deps): real { d.connectCap + d.attemptCap }

  /** The shares of the `i` candidates before leave at least the floor. */
  predicate Affords(d: Deps, i: nat) { d.budget - Times(i, Share(d)) >= d.floor }

  function Times(i: nat, share: real): real { i as real * share }

  lemma SharesGrow(i: nat, j: nat, share: real)
    requires share >= 0.0 && i <= j
    ensures Times(i, share) <= Times(j, share)
  {
    assert (j - i) as real * share >= 0.0;
    assert j as real * share == i as real * share + (j - i) as real * share;
  }

  lemma TimesNone(share: real)
    ensures Times(0, share) == 0.0
  {
  }

  lemma OneMoreShare(i: nat, share: real)
    ensures Times(i + 1, share) == Times(i, share) + share
  {
  }

  /** The candidates before cost at most a share each. */
  lemma {:induction false} StartWithinShares(d: Deps, peers: seq<Peer>, i: nat)
    requires HonoursCaps(d, peers) && CapsOk(d) && i < |peers| && WalksTo(d, peers, i)
    ensures Start(d, peers, i) <= Times(i, Share(d))
  {
    hide Times;
    if i == 0 {
      TimesNone(Share(d));
    } else {
      var j := i - 1;
      StartWithinShares(d, peers, j);
      assert WalksTo(d, peers, j) && CallsHonour(d, peers, j) && Passes(d, peers, j);
      SpentWithinShare(d, peers, j);
      OneMoreShare(j, Share(d));
      assert j + 1 == i;
    }
  }

  lemma SpentWithinShare(d: Deps, peers: seq<Peer>, i: nat)
    requires CapsOk(d) && i + 1 < |peers| && CallsHonour(d, peers, i) && Passes(d, peers, i)
    ensures Spent(d, peers[i]) <= Share(d)
  {
  }

  /**
   * A candidate the shares afford is reached, unless the walk ended before it for
   * another reason: it is not passed over for the budget, except after its dial.
   */
  lemma Reaches(d: Deps, peers: seq<Peer>, i: nat)
    requires HonoursCaps(d, peers) && CapsOk(d) && i < |peers| && Affords(d, i)
    ensures i <= Stop(d, peers) ==> !OutBefore(d, peers, i)
    ensures Stop(d, peers) < |peers| && RunsOut(d, peers, Stop(d, peers)) ==>
      i < Stop(d, peers) || (i == Stop(d, peers) && OutAfterDial(d, peers, i))
  {
    hide Times;
    var stop := Stop(d, peers);
    if i <= stop {
      assert WalksTo(d, peers, i);
      StartWithinShares(d, peers, i);
    } else {
      assert WalksTo(d, peers, stop) && CallsHonour(d, peers, stop);
      StartWithinShares(d, peers, stop);
      SharesGrow(stop, i, Share(d));
      SharesGrow(stop + 1, i, Share(d));
      OneMoreShare(stop, Share(d));
    }
  }

  // ----- the code -----

  method OutOfBudget(d: Deps, peers: seq<Peer>, skipped: seq<Skip>) returns (all: seq<Skip>)
    requires |skipped| <= |peers| && Accounted(d, peers, skipped, |skipped|)
    ensures |all| == |peers| && all[..|skipped|] == skipped && Accounted(d, peers, all, |skipped|)
  {
    all := skipped;
    for k := |skipped| to |peers|
      invariant |all| == k && all[..|skipped|] == skipped && Accounted(d, peers, all, |skipped|)
    {
      all := all + [Skip(k, Budget, None)];
    }
  }

  /** How one candidate ended. */
  datatype Turn = Won | Passed(skip: Skip) | Threw | RanOut

  /** One candidate, from the budget check to its skip: the turn is its fate, and the clock moves as it must. */
  method TryOne(d: Deps, peers: seq<Peer>, i: nat, start: real) returns (turn: Turn, elapsed: real)
    requires i < |peers| && start == Start(d, peers, i)
    ensures turn == Won <==> Wins(d, peers, i)
    ensures turn == Threw <==> Faults(d, peers, i)
    ensures turn == RanOut <==> RunsOut(d, peers, i)
    ensures turn.Passed? <==> Passes(d, peers, i)
    ensures turn.Passed? ==> turn.skip.stage != Budget && Explained(d, peers, i, turn.skip)
    ensures elapsed == TimeAfter(d, peers, i)
  {
    var p := peers[i];
    elapsed := start;
    if d.budget - elapsed < d.floor {
      return RanOut, elapsed;
    }
    if !p.connected {
      if !d.canDial {
        return Passed(Skip(i, Connect, Some(d.notConnected))), elapsed;
      }
      elapsed := elapsed + p.dialTook;
      if p.dial == Fault {
        return Threw, elapsed;
      }
      if p.dial.Failed? {
        return Passed(Skip(i, Connect, Some(p.dial.code))), elapsed;
      }
      if d.budget - elapsed < d.floor {
        return RanOut, elapsed;
      }
    }
    elapsed := elapsed + p.attemptTook;
    if p.attempt == Done {
      return Won, elapsed;
    }
    if p.attempt == Fault || p.attempt.code !in d.candidateCodes {
      return Threw, elapsed;
    }
    return Passed(Skip(i, Attempt, Some(p.attempt.code))), elapsed;
  }

  /**
   * The walk ends where it must and says why: taken by the first candidate not
   * passed over if that one wins, rethrown if it faults, none available if the
   * budget ran out there or the list did. Each candidate before is accounted for
   * once, in order, for a reason of its own.
   */
  method SteerReceive(d: Deps, peers: seq<Peer>) returns (r: Result, elapsed: real)
    ensures r == NoCandidates <==> peers == []
    ensures var stop := Stop(d, peers);
      && (r.Taken? <==> stop < |peers| && Wins(d, peers, stop))
      && (r.Rethrown? <==> stop < |peers| && Faults(d, peers, stop))
      && (r.NoneAvailable? <==> peers != [] && (stop == |peers| || RunsOut(d, peers, stop)))
      && (r.Taken? ==> r.winner == stop && |r.skipped| == stop)
      && (r.Rethrown? ==> r.at == stop && |r.skipped| == stop)
      && (r.NoneAvailable? ==> |r.skipped| == |peers|)
      && (r.NoCandidates? || Accounted(d, peers, r.skipped, stop))
    ensures elapsed == Duration(d, peers)
    ensures HonoursCaps(d, peers) ==> elapsed == 0.0 || elapsed <= d.budget
  {
    elapsed := 0.0;
    ghost var honours := HonoursCaps(d, peers);
    if honours {
      WithinBudget(d, peers);
    }
    if peers == [] {
      return NoCandidates, elapsed;
    }
    var skipped: seq<Skip> := [];
    for i := 0 to |peers|
      invariant |skipped| == i && Accounted(d, peers, skipped, i)
      invariant WalksTo(d, peers, i) && elapsed == Start(d, peers, i)
    {
      OneFate(d, peers, i);
      var turn;
      turn, elapsed := TryOne(d, peers, i, elapsed);
      match turn {
        case Passed(skip) =>
          skipped := skipped + [skip];
        case Won =>
          StopUnique(d, peers, 0, i);
          return Taken(i, skipped), elapsed;
        case Threw =>
          StopUnique(d, peers, 0, i);
          return Rethrown(i, skipped), elapsed;
        case RanOut =>
          StopUnique(d, peers, 0, i);
          var all := OutOfBudget(d, peers, skipped);
          return NoneAvailable(all), elapsed;
      }
    }
    StopUnique(d, peers, 0, |peers|);
    return NoneAvailable(skipped), elapsed;
  }
}
