/**
 * The audit gate's fixpoint (scripts/audit-gate.js): which vulnerable packages the
 * allowlist leaves uncovered. The reference is reachability: a package stays when
 * a chain of dependencies leads from it to something no live exception covers.
 */
module AuditGate {

  datatype Name = Name(id: nat)

  datatype Advisory = Advisory(id: nat)

  /** A record's `via`: a vulnerable dependency, or an advisory of its own. */
  datatype Via = Dependency(name: Name) | Direct(advisory: Advisory)

  type Report = map<Name, seq<Via>>

  datatype Exception = Exception(package: Name, advisory: Advisory, expires: int)

  /** `inherited`: names the `in` operator also finds, on any object, such as "constructor". */
  datatype Gate = Gate(allowlist: seq<Exception>, today: int, inherited: set<Name>)

  predicate Live(g: Gate, name: Name, advisory: Advisory) {
    exists i :: 0 <= i < |g.allowlist| &&
      g.allowlist[i].expires >= g.today && g.allowlist[i].package == name && g.allowlist[i].advisory == advisory
  }

  // ----- the reference -----

  /** The record has an advisory no live exception names for it. */
  predicate Exposed(g: Gate, report: Report, name: Name) {
    name in report &&
    exists i :: 0 <= i < |report[name]| && report[name][i].Direct? && !Live(g, name, report[name][i].advisory)
  }

  predicate InheritedOnly(g: Gate, report: Report, name: Name) { name in g.inherited && name !in report }

  /** The record names a dependency that is found on every object but is not in the report. */
  predicate Dangling(g: Gate, report: Report, name: Name) {
    name in report &&
    exists i :: 0 <= i < |report[name]| && report[name][i].Dependency? && InheritedOnly(g, report, report[name][i].name)
  }

  predicate Links(report: Report, a: Name, b: Name) {
    a in report && b in report && Dependency(b) in report[a]
  }

  ghost predicate Chain(report: Report, path: seq<Name>) {
    path != [] && path[0] in report && forall i :: 0 <= i < |path| - 1 ==> Links(report, path[i], path[i + 1])
  }

  ghost predicate LeadsTo(g: Gate, report: Report, name: Name, path: seq<Name>) {
    && Chain(report, path) && path[0] == name
    && (Exposed(g, report, path[|path| - 1]) || Dangling(g, report, path[|path| - 1]))
  }

  ghost predicate Uncovered(g: Gate, report: Report, name: Name) {
    exists path :: LeadsTo(g, report, name, path)
  }

  // ----- the loop -----

  predicate ViaOk(g: Gate, report: Report, covered: set<Name>, name: Name, via: Via) {
    match via
    case Dependency(d) => d in covered || !(d in report || d in g.inherited)
    case Direct(a) => Live(g, name, a)
  }

  predicate RecordOk(g: Gate, report: Report, covered: set<Name>, name: Name)
    requires name in report
  {
    forall i :: 0 <= i < |report[name]| ==> ViaOk(g, report, covered, name, report[name][i])
  }

  /** Nothing covered by mistake so far: what is gone really is uncovered. */
  ghost predicate Sound(g: Gate, report: Report, covered: set<Name>) {
    covered <= report.Keys && forall n :: n in report && n !in covered ==> Uncovered(g, report, n)
  }

  lemma Prepend(g: Gate, report: Report, name: Name, next: Name, path: seq<Name>)
    requires Links(report, name, next) && LeadsTo(g, report, next, path)
    ensures LeadsTo(g, report, name, [name] + path)
  {
    var longer := [name] + path;
    forall i | 0 <= i < |longer| - 1 ensures Links(report, longer[i], longer[i + 1]) {
      if i > 0 {
        assert Links(report, path[i - 1], path[i]);
      }
    }
    assert longer[|longer| - 1] == path[|path| - 1];
  }

  lemma FailsUncovered(g: Gate, report: Report, covered: set<Name>, name: Name)
    requires Sound(g, report, covered) && name in covered && !RecordOk(g, report, covered, name)
    ensures Uncovered(g, report, name)
  {
    var i :| 0 <= i < |report[name]| && !ViaOk(g, report, covered, name, report[name][i]);
    var via := report[name][i];
    if via.Dependency? && via.name in report {
      assert Links(report, name, via.name);
      var path :| LeadsTo(g, report, via.name, path);
      Prepend(g, report, name, via.name, path);
    } else {
      assert LeadsTo(g, report, name, [name]) by {
        assert Exposed(g, report, name) || Dangling(g, report, name);
      }
    }
  }

  ghost predicate Stable(g: Gate, report: Report, covered: set<Name>) {
    covered <= report.Keys && forall n :: n in covered ==> RecordOk(g, report, covered, n)
  }

  /** No chain leads out of a stable set. */
  lemma {:induction false} StableCovers(g: Gate, report: Report, covered: set<Name>, name: Name, path: seq<Name>)
    requires Stable(g, report, covered) && name in covered
    ensures !LeadsTo(g, report, name, path)
    decreases |path|
  {
    if LeadsTo(g, report, name, path) {
      assert RecordOk(g, report, covered, name);
      if |path| > 1 {
        assert Links(report, path[0], path[1]);
        var i :| 0 <= i < |report[name]| && report[name][i] == Dependency(path[1]);
        assert ViaOk(g, report, covered, name, report[name][i]);
        var rest := path[1..];
        forall k | 0 <= k < |rest| - 1 ensures Links(report, rest[k], rest[k + 1]) {
          assert Links(report, path[k + 1], path[k + 2]);
        }
        assert LeadsTo(g, report, path[1], rest);
        StableCovers(g, report, covered, path[1], rest);
      }
    }
  }

  lemma SettledExact(g: Gate, report: Report, covered: set<Name>)
    requires Sound(g, report, covered) && Stable(g, report, covered)
    ensures forall n :: n in report ==> (n !in covered <==> Uncovered(g, report, n))
  {
    forall n | n in covered ensures !Uncovered(g, report, n) {
      forall path ensures !LeadsTo(g, report, n, path) {
        StableCovers(g, report, covered, n, path);
      }
    }
  }

  /** One pass over the covered names, in the set's order. */
  method Pass(g: Gate, report: Report, order: seq<Name>, before: set<Name>) returns (covered: set<Name>, changed: bool)
    requires (forall n :: n in report ==> n in order) && Sound(g, report, before)
    ensures Sound(g, report, covered) && covered <= before
    ensures changed ==> covered < before
    ensures !changed ==> covered == before && Stable(g, report, covered)
  {
    covered, changed := before, false;
    for i := 0 to |order|
      invariant Sound(g, report, covered) && covered <= before && (changed ==> covered < before)
      invariant !changed ==> covered == before && forall n :: n in order[..i] && n in covered ==> RecordOk(g, report, covered, n)
    {
      var name := order[i];
      assert order[..i + 1] == order[..i] + [name];
      if name in covered {
        var ok := Every(g, report, covered, name);
        if !ok {
          FailsUncovered(g, report, covered, name);
          covered := covered - {name};
          changed := true;
        }
      }
    }
    assert order[..|order|] == order;
  }

  method Every(g: Gate, report: Report, covered: set<Name>, name: Name) returns (ok: bool)
    requires name in report
    ensures ok <==> RecordOk(g, report, covered, name)
  {
    var vias := report[name];
    for i := 0 to |vias|
      invariant forall j :: 0 <= j < i ==> ViaOk(g, report, covered, name, vias[j])
    {
      if !ViaOk(g, report, covered, name, vias[i]) {
        return false;
      }
    }
    return true;
  }

  /** What is left is exactly what a chain of dependencies leads from to something uncovered. */
  method Remaining(g: Gate, report: Report, order: seq<Name>) returns (out: Report)
    requires forall n :: n in report ==> n in order
    ensures forall n :: n in out <==> Uncovered(g, report, n)
    ensures forall n :: n in out ==> n in report && out[n] == report[n]
  {
    var covered := report.Keys;
    var changed := true;
    while changed
      invariant Sound(g, report, covered)
      invariant !changed ==> Stable(g, report, covered)
      decreases |covered|, changed
    {
      var was := covered;
      covered, changed := Pass(g, report, order, covered);
      if changed {
        Smaller(covered, was);
      }
    }
    SettledExact(g, report, covered);
    out := map n | n in report && n !in covered :: report[n];
    forall n | Uncovered(g, report, n) ensures n in report {
      var path :| LeadsTo(g, report, n, path);
    }
  }

  lemma {:induction false} Smaller(a: set<Name>, b: set<Name>)
    requires a < b
    ensures |a| < |b|
  {
    if a != {} {
      var x :| x in a;
      Smaller(a - {x}, b - {x});
    }
  }

  /** The order of the report's keys has no say in the result. */
  method RemainingTwice(g: Gate, report: Report, one: seq<Name>, other: seq<Name>) returns (a: Report, b: Report)
    requires forall n :: n in report ==> n in one && n in other
    ensures a == b
    ensures forall n :: n in a <==> Uncovered(g, report, n)
  {
    a := Remaining(g, report, one);
    b := Remaining(g, report, other);
  }

  /** As documented, a package stays just when it reaches an advisory that is not excepted. */
  ghost predicate ReachesAdvisory(g: Gate, report: Report, name: Name) {
    exists path :: Chain(report, path) && path[0] == name && Exposed(g, report, path[|path| - 1])
  }

  lemma ReachPrepend(g: Gate, report: Report, name: Name, next: Name)
    requires Links(report, name, next) && ReachesAdvisory(g, report, next)
    ensures ReachesAdvisory(g, report, name)
  {
    var path :| Chain(report, path) && path[0] == next && Exposed(g, report, path[|path| - 1]);
    assert LeadsTo(g, report, next, path);
    Prepend(g, report, name, next, path);
  }

  lemma {:induction false} ReachFromEnd(g: Gate, report: Report, path: seq<Name>)
    requires Chain(report, path) && ReachesAdvisory(g, report, path[|path| - 1])
    ensures ReachesAdvisory(g, report, path[0])
  {
    if |path| > 1 {
      var rest := path[1..];
      assert Links(report, path[0], path[1]);
      forall k | 0 <= k < |rest| - 1 ensures Links(report, rest[k], rest[k + 1]) {
        assert Links(report, path[k + 1], path[k + 2]);
      }
      ReachFromEnd(g, report, rest);
      ReachPrepend(g, report, path[0], path[1]);
    }
  }

  /** The code keeps just the documented packages if and only if each dangling record reaches an advisory anyway. */
  lemma DocumentedExactly(g: Gate, report: Report)
    ensures (forall n :: Uncovered(g, report, n) <==> ReachesAdvisory(g, report, n)) <==>
            (forall n :: Dangling(g, report, n) ==> ReachesAdvisory(g, report, n))
  {
    forall n ensures ReachesAdvisory(g, report, n) ==> Uncovered(g, report, n) {
      if ReachesAdvisory(g, report, n) {
        var path :| Chain(report, path) && path[0] == n && Exposed(g, report, path[|path| - 1]);
        assert LeadsTo(g, report, n, path);
      }
    }
    forall n ensures Dangling(g, report, n) ==> Uncovered(g, report, n) {
      if Dangling(g, report, n) {
        assert LeadsTo(g, report, n, [n]);
      }
    }
    if forall n :: Dangling(g, report, n) ==> ReachesAdvisory(g, report, n) {
      forall n | Uncovered(g, report, n) ensures ReachesAdvisory(g, report, n) {
        var path :| LeadsTo(g, report, n, path);
        var end := path[|path| - 1];
        if Exposed(g, report, end) {
          assert Chain(report, path);
        } else {
          ReachFromEnd(g, report, path);
        }
      }
    }
  }

  /** A record that only names an inherited property is kept with no advisory anywhere. */
  lemma DanglingStays()
    ensures var g := Gate([], 0, {Name(1)}); var report := map[Name(0) := [Dependency(Name(1))]];
      Uncovered(g, report, Name(0)) && !ReachesAdvisory(g, report, Name(0))
  {
    var g := Gate([], 0, {Name(1)});
    var report: Report := map[Name(0) := [Dependency(Name(1))]];
    assert InheritedOnly(g, report, report[Name(0)][0].name);
    assert LeadsTo(g, report, Name(0), [Name(0)]);
    assert forall n :: !Exposed(g, report, n);
  }
}
