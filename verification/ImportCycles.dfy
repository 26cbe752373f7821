/**
 * The import-cycle gate of scripts/import-cycles.ts: Tarjan's strongly
 * connected components, iterative, with an explicit work stack.
 *
 * `FindCycles` keeps the source's loops and tables. Its contract is stated
 * against reachability alone: the report is exactly the set of maximal
 * strongly connected sets of files that contain a cycle, and it is empty
 * exactly when the imports have a load order.
 */
module ImportCycles {

  datatype File = File(path: string)

  /** Each file mapped to the files it loads. A target need not be a key. */
  type Graph = map<File, seq<File>>

  function Targets(g: Graph, v: File): (ts: seq<File>) {
    if v in g then g[v] else []
  }

  // ----- reachability -----

  ghost predicate Edge(g: Graph, u: File, v: File) {
    v in Targets(g, u)
  }

  /** A walk of exactly `n` edges from `u` to `v`. */
  ghost predicate Walk(g: Graph, u: File, v: File, n: nat)
    decreases n
  {
    if n == 0 then u == v else exists w :: Edge(g, u, w) && Walk(g, w, v, n - 1)
  }

  ghost predicate Reaches(g: Graph, u: File, v: File) {
    exists n: nat :: Walk(g, u, v, n)
  }

  /** `v` comes back to itself along at least one edge. */
  ghost predicate OnCycle(g: Graph, v: File) {
    exists n: nat :: n > 0 && Walk(g, v, v, n)
  }

  /** Every file the graph mentions, as a key or as a target. */
  ghost function Files(g: Graph): set<File> {
    g.Keys + set u, v | u in g && v in g[u] :: v
  }

  lemma {:induction false} WalkAppend(g: Graph, u: File, v: File, w: File, m: nat, n: nat)
    requires Walk(g, u, v, m) && Walk(g, v, w, n)
    ensures Walk(g, u, w, m + n)
    decreases m
  {
    if m > 0 {
      var x :| Edge(g, u, x) && Walk(g, x, v, m - 1);
      WalkAppend(g, x, v, w, m - 1, n);
    }
  }

  lemma ReachesSelf(g: Graph, u: File)
    ensures Reaches(g, u, u)
  {
    assert Walk(g, u, u, 0);
  }

  lemma ReachesEdge(g: Graph, u: File, v: File)
    requires Edge(g, u, v)
    ensures Reaches(g, u, v)
  {
    assert Walk(g, v, v, 0);
    assert Walk(g, u, v, 1);
  }

  lemma ReachesTrans(g: Graph, u: File, v: File, w: File)
    requires Reaches(g, u, v) && Reaches(g, v, w)
    ensures Reaches(g, u, w)
  {
    var m: nat :| Walk(g, u, v, m);
    var n: nat :| Walk(g, v, w, n);
    WalkAppend(g, u, v, w, m, n);
  }

  ghost predicate ClosedUnderEdges(g: Graph, s: set<File>) {
    forall u, v :: u in s && Edge(g, u, v) ==> v in s
  }

  /** A walk cannot leave a set that no edge leaves. */
  lemma {:induction false} WalkStaysInside(g: Graph, s: set<File>, u: File, v: File, n: nat)
    requires ClosedUnderEdges(g, s) && u in s && Walk(g, u, v, n)
    ensures v in s
    decreases n
  {
    if n > 0 {
      var x :| Edge(g, u, x) && Walk(g, x, v, n - 1);
      WalkStaysInside(g, s, x, v, n - 1);
    }
  }

  lemma ReachesStaysInside(g: Graph, s: set<File>, u: File, v: File)
    requires ClosedUnderEdges(g, s) && u in s && Reaches(g, u, v)
    ensures v in s
  {
    var n: nat :| Walk(g, u, v, n);
    WalkStaysInside(g, s, u, v, n);
  }

  // ----- what the report means -----

  ghost predicate Distinct(c: seq<File>) {
    forall i, j :: 0 <= i < j < |c| ==> c[i] != c[j]
  }

  ghost predicate Disjoint(c: seq<File>, d: seq<File>) {
    forall v :: !(v in c && v in d)
  }

  /** `c` is exactly the class of mutually reachable files of each member. */
  ghost predicate IsStrongComponent(g: Graph, c: seq<File>) {
    && c != []
    && forall u, v :: u in c ==> (v in c <==> Reaches(g, u, v) && Reaches(g, v, u))
  }

  ghost predicate IsCycleReport(g: Graph, cycles: seq<seq<File>>) {
    && (forall i :: 0 <= i < |cycles| ==> IsStrongComponent(g, cycles[i]) && Distinct(cycles[i]))
    && (forall i, j :: 0 <= i < j < |cycles| ==> Disjoint(cycles[i], cycles[j]))
    && (forall v :: OnCycle(g, v) <==> exists i :: 0 <= i < |cycles| && v in cycles[i])
  }

  /** Every file once, each after everything it imports. */
  ghost predicate IsLoadOrder(g: Graph, order: seq<File>) {
    && Distinct(order)
    && (forall v :: v in Files(g) <==> v in order)
    && forall i, v :: 0 <= i < |order| && Edge(g, order[i], v) ==> v in order[..i]
  }

  // ----- the list of emitted components -----

  ghost function Members(c: seq<File>): set<File> {
    set v | v in c
  }

  ghost function Emitted(cs: seq<seq<File>>): set<File> {
    if cs == [] then {} else Emitted(cs[..|cs| - 1]) + Members(cs[|cs| - 1])
  }

  lemma EmittedAppend(cs: seq<seq<File>>, c: seq<File>)
    ensures Emitted(cs + [c]) == Emitted(cs) + Members(c)
  {
    assert (cs + [c])[..|cs|] == cs;
  }

  lemma {:induction false} EmittedIn(cs: seq<seq<File>>, v: File)
    ensures v in Emitted(cs) <==> exists i :: 0 <= i < |cs| && v in cs[i]
  {
    if cs != [] {
      var front := cs[..|cs| - 1];
      EmittedIn(front, v);
      assert forall i :: 0 <= i < |front| ==> front[i] == cs[i];
    }
  }

  /**
   * What the emitted list satisfies throughout the search: each component is
   * mutually reachable, and no edge leaves what was emitted up to it.
   */
  ghost predicate GoodEmission(g: Graph, cs: seq<seq<File>>) {
    && (forall i :: 0 <= i < |cs| ==> cs[i] != [] && Distinct(cs[i]))
    && (forall i, j :: 0 <= i < j < |cs| ==> Disjoint(cs[i], cs[j]))
    && (forall i, u, v :: 0 <= i < |cs| && u in cs[i] && v in cs[i] ==> Reaches(g, u, v))
    && (forall i :: 0 <= i <= |cs| ==> ClosedUnderEdges(g, Emitted(cs[..i])))
  }

  lemma GoodEmissionAppend(g: Graph, cs: seq<seq<File>>, c: seq<File>)
    requires GoodEmission(g, cs) && c != [] && Distinct(c)
    requires Emitted(cs) !! Members(c)
    requires forall u, v :: u in c && v in c ==> Reaches(g, u, v)
    requires forall u, v :: u in c && Edge(g, u, v) ==> v in c || v in Emitted(cs)
    ensures GoodEmission(g, cs + [c])
  {
    var ds := cs + [c];
    EmittedAppend(cs, c);
    forall i | 0 <= i <= |ds| ensures ClosedUnderEdges(g, Emitted(ds[..i])) {
      if i <= |cs| {
        assert ds[..i] == cs[..i];
      } else {
        assert ds[..i] == ds && cs[..|cs|] == cs;
        assert ClosedUnderEdges(g, Emitted(cs));
      }
    }
    forall i | 0 <= i < |cs| ensures Disjoint(cs[i], c) {
      forall v | v in cs[i] ensures v !in c {
        EmittedIn(cs, v);
        assert v in Emitted(cs);
      }
    }
  }

  /** An emitted component is a whole class of mutual reachability. */
  lemma EmittedIsStrongComponent(g: Graph, cs: seq<seq<File>>, i: nat)
    requires GoodEmission(g, cs) && i < |cs|
    ensures IsStrongComponent(g, cs[i])
  {
    forall u, v | u in cs[i] && Reaches(g, u, v) && Reaches(g, v, u) ensures v in cs[i] {
      var upTo := cs[..i + 1];
      EmittedIn(upTo, u);
      assert upTo[i] == cs[i];
      ReachesStaysInside(g, Emitted(upTo), u, v);
      EmittedIn(upTo, v);
      var k :| 0 <= k < |upTo| && v in upTo[k];
      if k < i {
        var before := cs[..i];
        EmittedIn(before, v);
        assert before[k] == upTo[k];
        ReachesStaysInside(g, Emitted(before), v, u);
        EmittedIn(before, u);
        assert false;
      }
    }
  }

  // ----- the final filter -----

  /** More than one file, or one file importing itself. */
  predicate FormsCycle(g: Graph, c: seq<File>) {
    |c| > 1 || (|c| == 1 && c[0] in Targets(g, c[0]))
  }

  lemma CyclicIffOnCycle(g: Graph, c: seq<File>, v: File)
    requires IsStrongComponent(g, c) && Distinct(c) && v in c
    ensures FormsCycle(g, c) <==> OnCycle(g, v)
  {
    if |c| > 1 {
      var u := if c[0] == v then c[1] else c[0];
      assert u in c && Reaches(g, v, u) && Reaches(g, u, v);
      var m: nat :| Walk(g, v, u, m);
      var n: nat :| Walk(g, u, v, n);
      WalkAppend(g, v, u, v, m, n);
      assert m > 0;
    } else if FormsCycle(g, c) {
      assert v == c[0] && Edge(g, v, v) && Walk(g, v, v, 0);
      assert Walk(g, v, v, 1);
    } else if OnCycle(g, v) {
      var n: nat :| n > 0 && Walk(g, v, v, n);
      var x :| Edge(g, v, x) && Walk(g, x, v, n - 1);
      ReachesEdge(g, v, x);
      assert false;
    }
  }

  lemma OnCycleIsFile(g: Graph, v: File)
    requires OnCycle(g, v)
    ensures v in Files(g)
  {
    var n: nat :| n > 0 && Walk(g, v, v, n);
    var x :| Edge(g, v, x) && Walk(g, x, v, n - 1);
  }

  /** The indices of the components the filter keeps, in order. */
  ghost predicate IsFiltered(g: Graph, cs: seq<seq<File>>, cycles: seq<seq<File>>, at: seq<nat>) {
    && |at| == |cycles|
    && (forall k :: 0 <= k < |at| ==> at[k] < |cs| && cycles[k] == cs[at[k]] && FormsCycle(g, cs[at[k]]))
    && (forall k, l :: 0 <= k < l < |at| ==> at[k] < at[l])
    && (forall i :: 0 <= i < |cs| && FormsCycle(g, cs[i]) ==> i in at)
  }

  lemma FilteredIsReport(g: Graph, cs: seq<seq<File>>, cycles: seq<seq<File>>, at: seq<nat>)
    requires GoodEmission(g, cs) && Emitted(cs) == Files(g) && IsFiltered(g, cs, cycles, at)
    ensures IsCycleReport(g, cycles)
  {
    forall i | 0 <= i < |cs| ensures IsStrongComponent(g, cs[i]) {
      EmittedIsStrongComponent(g, cs, i);
    }
    forall v ensures OnCycle(g, v) <==> exists k :: 0 <= k < |cycles| && v in cycles[k] {
      EmittedIn(cs, v);
      if OnCycle(g, v) {
        OnCycleIsFile(g, v);
        var i :| 0 <= i < |cs| && v in cs[i];
        CyclicIffOnCycle(g, cs[i], v);
        var k :| 0 <= k < |at| && at[k] == i;
        assert v in cycles[k];
      }
      if k :| 0 <= k < |cycles| && v in cycles[k] {
        CyclicIffOnCycle(g, cs[at[k]], v);
      }
    }
  }

  ghost function Heads(cs: seq<seq<File>>): seq<File>
    requires forall i :: 0 <= i < |cs| ==> cs[i] != []
  {
    seq(|cs|, i requires 0 <= i < |cs| => cs[i][0])
  }

  /** With no cyclic component, emission order is a load order. */
  lemma AcyclicEmissionIsLoadOrder(g: Graph, cs: seq<seq<File>>)
    requires GoodEmission(g, cs) && Emitted(cs) == Files(g)
    requires forall i :: 0 <= i < |cs| ==> !FormsCycle(g, cs[i])
    ensures IsLoadOrder(g, Heads(cs))
  {
    hide Files, Emitted, GoodEmission, FormsCycle, Heads;
    HeadsLength(g, cs);
    HeadsDistinct(g, cs);
    forall v ensures v in Files(g) <==> v in Heads(cs) {
      HeadsCover(g, cs, v);
    }
    forall i, v | 0 <= i < |cs| && Edge(g, Heads(cs)[i], v) ensures v in Heads(cs)[..i] {
      LoadsEarlier(g, cs, i, v);
    }
  }

  lemma HeadsLength(g: Graph, cs: seq<seq<File>>)
    requires GoodEmission(g, cs)
    ensures (forall i :: 0 <= i < |cs| ==> cs[i] != []) && |Heads(cs)| == |cs|
  {
  }

  lemma HeadsDistinct(g: Graph, cs: seq<seq<File>>)
    requires GoodEmission(g, cs)
    ensures Distinct(Heads(cs))
  {
    var order := Heads(cs);
    forall i, j | 0 <= i < j < |order| ensures order[i] != order[j] {
      assert Disjoint(cs[i], cs[j]);
      assert cs[i][0] in cs[i];
    }
  }

  lemma HeadsCover(g: Graph, cs: seq<seq<File>>, v: File)
    requires GoodEmission(g, cs) && (forall i :: 0 <= i < |cs| ==> !FormsCycle(g, cs[i]))
    ensures v in Emitted(cs) <==> v in Heads(cs)
  {
    var order := Heads(cs);
    EmittedIn(cs, v);
    if i :| 0 <= i < |cs| && v in cs[i] { assert order[i] == v; }
    if i :| 0 <= i < |order| && order[i] == v { assert v in cs[i]; }
  }

  lemma LoadsEarlier(g: Graph, cs: seq<seq<File>>, i: nat, v: File)
    requires GoodEmission(g, cs) && (forall k :: 0 <= k < |cs| ==> !FormsCycle(g, cs[k]))
    requires i < |cs| && Edge(g, Heads(cs)[i], v)
    ensures v in Heads(cs)[..i]
  {
    var order := Heads(cs);
    EmittedIn(cs[..i + 1], order[i]);
    assert cs[..i + 1][i] == cs[i];
    assert ClosedUnderEdges(g, Emitted(cs[..i + 1]));
    EmittedIn(cs[..i + 1], v);
    var k :| 0 <= k < i + 1 && v in cs[..i + 1][k];
    assert v == cs[k][0] && k != i;
    assert order[..i][k] == v;
  }

  lemma {:induction false} WalkGoesDown(g: Graph, order: seq<File>, i: nat, v: File, n: nat)
    requires IsLoadOrder(g, order) && i < |order| && n > 0 && Walk(g, order[i], v, n)
    ensures v in order[..i]
    decreases n
  {
    var x :| Edge(g, order[i], x) && Walk(g, x, v, n - 1);
    var k :| 0 <= k < i && order[..i][k] == x;
    if n > 1 {
      WalkGoesDown(g, order, k, v, n - 1);
      var l :| 0 <= l < k && order[..k][l] == v;
      assert order[..i][l] == v;
    }
  }

  /** A graph with a load order has no cycle. */
  lemma LoadOrderExcludesCycles(g: Graph, order: seq<File>, v: File)
    requires IsLoadOrder(g, order)
    ensures !OnCycle(g, v)
  {
    if OnCycle(g, v) {
      OnCycleIsFile(g, v);
      var i :| 0 <= i < |order| && order[i] == v;
      var n: nat :| n > 0 && Walk(g, v, v, n);
      WalkGoesDown(g, order, i, v, n);
      assert false;
    }
  }

  // ----- the search -----

  // Reachability held as a set of pairs, so that the step lemmas below reason
  // with its three laws rather than with walks.
  type Relation = iset<(File, File)>

  ghost predicate IsReach(g: Graph, r: Relation) {
    forall u, v {:trigger Reaches(g, u, v)} :: (u, v) in r <==> Reaches(g, u, v)
  }

  lemma Refl(g: Graph, r: Relation, u: File)
    requires IsReach(g, r)
    ensures (u, u) in r
  {
    ReachesSelf(g, u);
  }

  lemma OneEdge(g: Graph, r: Relation, u: File, v: File)
    requires IsReach(g, r) && Edge(g, u, v)
    ensures (u, v) in r
  {
    ReachesEdge(g, u, v);
  }

  lemma Trans(g: Graph, r: Relation, u: File, v: File, w: File)
    requires IsReach(g, r) && (u, v) in r && (v, w) in r
    ensures (u, w) in r
  {
    assert Reaches(g, u, v) && Reaches(g, v, w);
    ReachesTrans(g, u, v, w);
  }

  datatype Frame = Frame(node: File, edge: nat)

  /**
   * The visit numbers, the files still on Tarjan's stack, and the path of
   * open files: those with a frame on the work stack, bottom first.
   */
  datatype Visits = Visits(index: map<File, nat>, onStack: set<File>, path: seq<File>)

  ghost predicate Ordered(s: Visits) {
    && s.onStack <= s.index.Keys
    && (forall k :: 0 <= k < |s.path| ==> s.path[k] in s.onStack)
    && (forall k, l :: 0 <= k < l < |s.path| ==> s.index[s.path[k]] < s.index[s.path[l]])
  }

  /** `u` is on the stack, numbered at or above the open file `r`. */
  ghost predicate Above(s: Visits, r: File, u: File)
    requires s.onStack <= s.index.Keys
  {
    r in s.onStack && u in s.onStack && s.index[r] <= s.index[u]
  }

  /** An open file reaches every stack file numbered above it. */
  ghost predicate OpenReachUp(g: Graph, r: Relation, s: Visits)
    requires Ordered(s)
  {
    forall k, u :: 0 <= k < |s.path| && Above(s, s.path[k], u) ==> (s.path[k], u) in r
  }

  ghost predicate ReachesOpen(g: Graph, r: Relation, s: Visits, u: File)
    requires Ordered(s)
  {
    exists k :: 0 <= k < |s.path| && Above(s, s.path[k], u) && (u, s.path[k]) in r
  }

  /** Every stack file reaches an open file at or below it. */
  ghost predicate AllReachOpen(g: Graph, r: Relation, s: Visits)
    requires Ordered(s)
  {
    forall u {:trigger ReachesOpen(g, r, s, u)} :: u in s.onStack ==> ReachesOpen(g, r, s, u)
  }

  ghost predicate Explored(g: Graph, r: Relation, s: Visits) {
    IsReach(g, r) && Ordered(s) && OpenReachUp(g, r, s) && AllReachOpen(g, r, s)
  }

  // How many edges of each visited file have been looked at.
  type Scan = map<File, nat>

  /** A stack file off the path has all its edges behind it. */
  ghost predicate Scanned(g: Graph, s: Visits, scan: Scan) {
    && scan.Keys == s.index.Keys
    && (forall u :: u in scan ==> scan[u] <= |Targets(g, u)|)
    && (forall u :: u in s.onStack && u in scan && u !in s.path ==> scan[u] == |Targets(g, u)|)
  }

  /** Edge `i` of the stack file `u` was looked at. */
  ghost predicate Looked(g: Graph, s: Visits, scan: Scan, u: File, i: int) {
    u in s.onStack && u in scan && 0 <= i < scan[u] && scan[u] <= |Targets(g, u)|
  }

  /** An edge that was looked at leads to a visited file, or to one of `pending`. */
  ghost predicate LookedVisited(g: Graph, s: Visits, scan: Scan, pending: set<File>) {
    forall u, i :: Looked(g, s, scan, u, i) ==> Targets(g, u)[i] in s.index.Keys + pending
  }

  /** `u` lies on the stack from the `k`th open file up to the next one. */
  ghost predicate InSegment(s: Visits, k: int, u: File)
    requires Ordered(s)
  {
    && 0 <= k < |s.path|
    && Above(s, s.path[k], u)
    && (k + 1 == |s.path| || s.index[u] < s.index[s.path[k + 1]])
  }

  /** An open file's low link bounds every edge looked at in its segment. */
  ghost predicate LowBounds(g: Graph, s: Visits, low: map<File, nat>, scan: Scan)
    requires Ordered(s) && s.index.Keys <= low.Keys
  {
    forall k, u, i :: InSegment(s, k, u) && Looked(g, s, scan, u, i) && Targets(g, u)[i] in s.onStack
      ==> low[s.path[k]] <= s.index[Targets(g, u)[i]]
  }

  /** `n` is the number of a stack file that `v` reaches, at or below `v`. */
  ghost predicate LowReached(g: Graph, r: Relation, s: Visits, v: File, n: nat)
    requires Ordered(s)
  {
    exists z :: Above(s, z, v) && s.index[z] == n && (v, z) in r
  }

  ghost predicate LowsReached(g: Graph, r: Relation, s: Visits, low: map<File, nat>)
    requires Ordered(s) && s.index.Keys <= low.Keys
  {
    forall k {:trigger LowReached(g, r, s, s.path[k], low[s.path[k]])} ::
      0 <= k < |s.path| ==> LowReached(g, r, s, s.path[k], low[s.path[k]])
  }

  ghost predicate SearchInv(g: Graph, r: Relation, s: Visits, low: map<File, nat>, scan: Scan, pending: set<File>) {
    && Explored(g, r, s)
    && low.Keys == s.index.Keys
    && Scanned(g, s, scan)
    && LookedVisited(g, s, scan, pending)
    && LowBounds(g, s, low, scan)
    && LowsReached(g, r, s, low)
  }

  // ----- lowering a low link -----

  lemma LowerKeepsInv(g: Graph, r: Relation, s: Visits, low: map<File, nat>, scan: Scan, k: nat, n: nat)
    requires SearchInv(g, r, s, low, scan, {}) && k < |s.path| && LowReached(g, r, s, s.path[k], n)
    requires n <= low[s.path[k]]
    ensures SearchInv(g, r, s, low[s.path[k] := n], scan, {})
  {
    var low' := low[s.path[k] := n];
    forall j | 0 <= j < |s.path| ensures LowReached(g, r, s, s.path[j], low'[s.path[j]]) {
      assert LowReached(g, r, s, s.path[j], low[s.path[j]]);
    }
  }

  // ----- moving past an edge -----

  /** The only edge newly looked at is the top frame's current one. */
  lemma AdvanceLooks(g: Graph, s: Visits, scan: Scan, v: File, u: File, i: int)
    requires v in scan && Looked(g, s, scan[v := scan[v] + 1], u, i)
    ensures Looked(g, s, scan, u, i) || (u == v && i == scan[v])
  {
  }

  lemma AdvanceBounds(g: Graph, s: Visits, low: map<File, nat>, scan: Scan)
    requires Ordered(s) && low.Keys == s.index.Keys && LowBounds(g, s, low, scan) && s.path != []
    requires var v := s.path[|s.path| - 1];
             && v in scan && scan[v] < |Targets(g, v)|
             && (Targets(g, v)[scan[v]] in s.onStack ==> low[v] <= s.index[Targets(g, v)[scan[v]]])
    ensures var v := s.path[|s.path| - 1]; LowBounds(g, s, low, scan[v := scan[v] + 1])
  {
    var n := |s.path| - 1;
    var v := s.path[n];
    var scan' := scan[v := scan[v] + 1];
    forall k, u, i | InSegment(s, k, u) && Looked(g, s, scan', u, i) && Targets(g, u)[i] in s.onStack
      ensures low[s.path[k]] <= s.index[Targets(g, u)[i]]
    {
      AdvanceLooks(g, s, scan, v, u, i);
      if !Looked(g, s, scan, u, i) {
        assert k == n;
      }
    }
  }

  lemma AdvanceKeepsInv(g: Graph, r: Relation, s: Visits, low: map<File, nat>, scan: Scan, to: File)
    requires SearchInv(g, r, s, low, scan, {}) && s.path != []
    requires var v := s.path[|s.path| - 1];
             && scan[v] < |Targets(g, v)|
             && Targets(g, v)[scan[v]] == to
             && (to in s.onStack ==> low[v] <= s.index[to])
    ensures var v := s.path[|s.path| - 1]; SearchInv(g, r, s, low, scan[v := scan[v] + 1], {to})
  {
    hide OpenReachUp, AllReachOpen, LowsReached, LowBounds, LookedVisited, IsReach;
    var v := s.path[|s.path| - 1];
    AdvanceScanned(g, s, scan);
    hide Scanned, Ordered;
    AdvanceBounds(g, s, low, scan);
    AdvanceVisited(g, s, scan, v, to);
  }

  lemma AdvanceScanned(g: Graph, s: Visits, scan: Scan)
    requires Ordered(s) && Scanned(g, s, scan) && s.path != []
    requires var v := s.path[|s.path| - 1]; v in scan && scan[v] < |Targets(g, v)|
    ensures var v := s.path[|s.path| - 1]; Scanned(g, s, scan[v := scan[v] + 1])
  {
  }

  lemma AdvanceVisited(g: Graph, s: Visits, scan: Scan, v: File, to: File)
    requires LookedVisited(g, s, scan, {}) && v in scan && scan[v] < |Targets(g, v)| && Targets(g, v)[scan[v]] == to
    ensures LookedVisited(g, s, scan[v := scan[v] + 1], {to})
  {
    forall u, i | Looked(g, s, scan[v := scan[v] + 1], u, i) ensures Targets(g, u)[i] in s.index.Keys + {to} {
      AdvanceLooks(g, s, scan, v, u, i);
    }
  }

  // ----- visiting a new file -----

  /** Numbering `v` and pushing it on both stacks. */
  ghost function Visited(s: Visits, v: File, next: nat): Visits {
    Visits(s.index[v := next], s.onStack + {v}, s.path + [v])
  }

  ghost predicate Fresh(s: Visits, v: File, next: nat) {
    v !in s.index && forall u :: u in s.index ==> s.index[u] < next
  }

  lemma VisitOrdered(s: Visits, v: File, next: nat)
    requires Ordered(s) && Fresh(s, v, next)
    ensures Ordered(Visited(s, v, next))
    ensures forall r, u :: r != v && u != v ==> (Above(Visited(s, v, next), r, u) <==> Above(s, r, u))
  {
    var t := Visited(s, v, next);
    assert forall k :: 0 <= k < |s.path| ==> t.path[k] == s.path[k];
  }

  lemma VisitReachUp(g: Graph, r: Relation, s: Visits, v: File, next: nat)
    requires Explored(g, r, s) && Fresh(s, v, next)
    requires s.path != [] ==> Edge(g, s.path[|s.path| - 1], v)
    requires Ordered(Visited(s, v, next))
    ensures OpenReachUp(g, r, Visited(s, v, next))
  {
    var t := Visited(s, v, next);
    var n := |s.path|;
    Refl(g, r, v);
    forall k, u | 0 <= k < |t.path| && Above(t, t.path[k], u) ensures (t.path[k], u) in r {
      if u == v && k < n {
        var top := s.path[n - 1];
        assert Above(s, s.path[k], top);
        OneEdge(g, r, top, v);
        Trans(g, r, s.path[k], top, v);
      } else if k < n {
        assert Above(s, s.path[k], u);
      }
    }
  }

  lemma VisitReachOpen(g: Graph, r: Relation, s: Visits, v: File, next: nat)
    requires Explored(g, r, s) && Fresh(s, v, next)
    requires Ordered(Visited(s, v, next))
    ensures AllReachOpen(g, r, Visited(s, v, next))
  {
    var t := Visited(s, v, next);
    var n := |s.path|;
    forall u | u in t.onStack ensures ReachesOpen(g, r, t, u) {
      if u == v {
        Refl(g, r, v);
        assert t.path[n] == v && Above(t, v, v);
      } else {
        assert ReachesOpen(g, r, s, u);
        var k :| 0 <= k < n && Above(s, s.path[k], u) && (u, s.path[k]) in r;
        assert t.path[k] == s.path[k] && Above(t, t.path[k], u);
      }
    }
  }

  lemma VisitLinks(g: Graph, r: Relation, s: Visits, low: map<File, nat>, scan: Scan, v: File, next: nat)
    requires SearchInv(g, r, s, low, scan, {v}) && Fresh(s, v, next)
    requires Ordered(Visited(s, v, next))
    ensures Scanned(g, Visited(s, v, next), scan[v := 0])
    ensures LookedVisited(g, Visited(s, v, next), scan[v := 0], {})
    ensures LowBounds(g, Visited(s, v, next), low[v := next], scan[v := 0])
  {
    hide OpenReachUp, AllReachOpen, IsReach, LowBounds, LowsReached, LookedVisited;
    VisitScanned(g, s, scan, v, next);
    VisitBounds(g, r, s, low, scan, v, next);
  }

  lemma VisitScanned(g: Graph, s: Visits, scan: Scan, v: File, next: nat)
    requires Scanned(g, s, scan) && LookedVisited(g, s, scan, {v}) && s.onStack <= s.index.Keys && v !in s.index
    ensures Scanned(g, Visited(s, v, next), scan[v := 0])
    ensures LookedVisited(g, Visited(s, v, next), scan[v := 0], {})
  {
    var t, scan' := Visited(s, v, next), scan[v := 0];
    forall u | u in t.onStack && u in scan' && u !in t.path ensures scan'[u] == |Targets(g, u)| {
      assert t.path[|s.path|] == v;
      assert u !in s.path;
    }
    forall u, i | Looked(g, t, scan', u, i) ensures Targets(g, u)[i] in t.index.Keys {
      assert Looked(g, s, scan, u, i);
    }
  }

  lemma VisitBounds(g: Graph, r: Relation, s: Visits, low: map<File, nat>, scan: Scan, v: File, next: nat)
    requires Ordered(s) && low.Keys == s.index.Keys == scan.Keys && LowBounds(g, s, low, scan)
    requires LowsReached(g, r, s, low) && Fresh(s, v, next) && Ordered(Visited(s, v, next))
    ensures LowBounds(g, Visited(s, v, next), low[v := next], scan[v := 0])
  {
    var t, scan' := Visited(s, v, next), scan[v := 0];
    var n := |s.path|;
    assert t.path[n] == v;
    assert forall k :: 0 <= k < n ==> t.path[k] == s.path[k];
    forall k, u, i | InSegment(t, k, u) && Looked(g, t, scan', u, i) && Targets(g, u)[i] in t.onStack
      ensures low[v := next][t.path[k]] <= t.index[Targets(g, u)[i]]
    {
      assert u != v && k < n && InSegment(s, k, u);
      assert LowReached(g, r, s, s.path[k], low[s.path[k]]);
    }
  }

  lemma VisitLows(g: Graph, r: Relation, s: Visits, low: map<File, nat>, v: File, next: nat)
    requires IsReach(g, r) && Ordered(s) && low.Keys == s.index.Keys && LowsReached(g, r, s, low) && Fresh(s, v, next)
    requires Ordered(Visited(s, v, next))
    ensures LowsReached(g, r, Visited(s, v, next), low[v := next])
  {
    var t, low' := Visited(s, v, next), low[v := next];
    var n := |s.path|;
    forall k | 0 <= k < |t.path| ensures LowReached(g, r, t, t.path[k], low'[t.path[k]]) {
      if k < n {
        var w := s.path[k];
        assert LowReached(g, r, s, s.path[k], low[s.path[k]]);
        var z :| Above(s, z, w) && s.index[z] == low[w] && (w, z) in r;
        assert Above(t, z, w) && t.index[z] == low[w];
      } else {
        Refl(g, r, v);
        assert Above(t, v, v);
      }
    }
  }

  /** Visiting a file, as a new root or below the top frame, keeps the invariant. */
  lemma VisitKeepsInv(g: Graph, r: Relation, s: Visits, low: map<File, nat>, scan: Scan, v: File, next: nat)
    requires SearchInv(g, r, s, low, scan, {v}) && Fresh(s, v, next)
    requires s.path != [] ==> Edge(g, s.path[|s.path| - 1], v)
    ensures SearchInv(g, r, Visited(s, v, next), low[v := next], scan[v := 0], {})
  {
    VisitOrdered(s, v, next);
    VisitReachUp(g, r, s, v, next);
    VisitReachOpen(g, r, s, v, next);
    VisitLinks(g, r, s, low, scan, v, next);
    VisitLows(g, r, s, low, v, next);
  }

  // ----- closing a file that is not a component's root -----

  ghost function Closed(s: Visits): Visits
    requires s.path != []
  {
    s.(path := s.path[..|s.path| - 1])
  }

  lemma CloseReachUp(g: Graph, r: Relation, s: Visits)
    requires Ordered(s) && OpenReachUp(g, r, s) && s.path != []
    ensures Ordered(Closed(s)) && OpenReachUp(g, r, Closed(s))
  {
    var t := Closed(s);
    forall k, u | 0 <= k < |t.path| && Above(t, t.path[k], u) ensures (t.path[k], u) in r {
      assert Above(s, s.path[k], u);
    }
  }

  lemma CloseReachOpen(g: Graph, r: Relation, s: Visits, j: int, u: File)
    requires IsReach(g, r) && Ordered(s) && s.path != [] && Ordered(Closed(s)) && ReachesOpen(g, r, s, u)
    requires 0 <= j < |s.path| - 1 && (s.path[|s.path| - 1], s.path[j]) in r
    ensures ReachesOpen(g, r, Closed(s), u)
  {
    var t, n := Closed(s), |s.path| - 1;
    var k :| 0 <= k < |s.path| && Above(s, s.path[k], u) && (u, s.path[k]) in r;
    if k == n {
      Trans(g, r, u, s.path[n], s.path[j]);
      assert s.index[s.path[j]] < s.index[s.path[n]];
      assert Above(t, t.path[j], u);
    } else {
      assert Above(t, t.path[k], u);
    }
  }

  lemma CloseExplored(g: Graph, r: Relation, s: Visits, n: nat)
    requires Explored(g, r, s) && s.path != []
    requires var v := s.path[|s.path| - 1]; LowReached(g, r, s, v, n) && n < s.index[v]
    ensures Explored(g, r, Closed(s))
  {
    var v := s.path[|s.path| - 1];
    CloseReachUp(g, r, s);
    var z :| Above(s, z, v) && s.index[z] == n && (v, z) in r;
    assert ReachesOpen(g, r, s, z);
    var j :| 0 <= j < |s.path| && Above(s, s.path[j], z) && (z, s.path[j]) in r;
    Trans(g, r, v, z, s.path[j]);
    forall u | u in Closed(s).onStack ensures ReachesOpen(g, r, Closed(s), u) {
      assert ReachesOpen(g, r, s, u);
      CloseReachOpen(g, r, s, j, u);
    }
  }

  lemma CloseBounds(g: Graph, s: Visits, low: map<File, nat>, scan: Scan)
    requires Ordered(s) && low.Keys == s.index.Keys && LowBounds(g, s, low, scan) && |s.path| > 1
    requires low[s.path[|s.path| - 2]] <= low[s.path[|s.path| - 1]]
    requires Ordered(Closed(s))
    ensures LowBounds(g, Closed(s), low, scan)
  {
    var t := Closed(s);
    var n := |t.path|;
    forall k, u, i | InSegment(t, k, u) && Looked(g, t, scan, u, i) && Targets(g, u)[i] in t.onStack
      ensures low[t.path[k]] <= t.index[Targets(g, u)[i]]
    {
      assert Looked(g, s, scan, u, i) && t.path[k] == s.path[k];
      if Above(s, s.path[n], u) {
        assert InSegment(s, n, u);
      } else {
        assert InSegment(s, k, u);
      }
    }
  }

  lemma CloseLows(g: Graph, r: Relation, s: Visits, low: map<File, nat>)
    requires Ordered(s) && low.Keys == s.index.Keys && LowsReached(g, r, s, low) && s.path != []
    requires Ordered(Closed(s))
    ensures LowsReached(g, r, Closed(s), low)
  {
    var t := Closed(s);
    forall k | 0 <= k < |t.path| ensures LowReached(g, r, t, t.path[k], low[t.path[k]]) {
      assert LowReached(g, r, s, s.path[k], low[s.path[k]]);
      var z :| Above(s, z, s.path[k]) && s.index[z] == low[s.path[k]] && (s.path[k], z) in r;
      assert Above(t, z, t.path[k]);
    }
  }

  lemma CloseScanned(g: Graph, s: Visits, scan: Scan)
    requires Scanned(g, s, scan) && LookedVisited(g, s, scan, {}) && s.path != []
    requires var v := s.path[|s.path| - 1]; v in scan && scan[v] == |Targets(g, v)|
    ensures Scanned(g, Closed(s), scan) && LookedVisited(g, Closed(s), scan, {})
  {
    var t, v := Closed(s), s.path[|s.path| - 1];
    assert t.onStack == s.onStack && t.index == s.index && s.path == t.path + [v];
    hide Closed;
    forall u | u in t.onStack && u in scan && u !in t.path ensures scan[u] == |Targets(g, u)| {
      assert u == v || u !in s.path;
    }
    forall u, i | Looked(g, t, scan, u, i) ensures Targets(g, u)[i] in t.index.Keys {
      assert Looked(g, s, scan, u, i);
    }
  }

  /** A fully scanned file whose low link lies below it stays on the stack, under its parent. */
  lemma CloseKeepsInv(g: Graph, r: Relation, s: Visits, low: map<File, nat>, scan: Scan)
    requires SearchInv(g, r, s, low, scan, {}) && |s.path| > 1
    requires var v := s.path[|s.path| - 1]; scan[v] == |Targets(g, v)| && low[v] < s.index[v]
    requires low[s.path[|s.path| - 2]] <= low[s.path[|s.path| - 1]]
    ensures SearchInv(g, r, Closed(s), low, scan, {})
  {
    var v := s.path[|s.path| - 1];
    assert LowReached(g, r, s, s.path[|s.path| - 1], low[v]);
    CloseExplored(g, r, s, low[v]);
    CloseBounds(g, s, low, scan);
    CloseLows(g, r, s, low);
    CloseScanned(g, s, scan);
  }

  // ----- a component -----

  /** The stack files numbered at or above the root. */
  ghost function Component(s: Visits, r: File): set<File>
    requires s.onStack <= s.index.Keys
  {
    set u | u in s.onStack && Above(s, r, u)
  }

  ghost function Popped(s: Visits): Visits
    requires s.path != [] && s.onStack <= s.index.Keys
  {
    Visits(s.index, s.onStack - Component(s, s.path[|s.path| - 1]), s.path[..|s.path| - 1])
  }

  ghost predicate AtRoot(g: Graph, r: Relation, s: Visits, low: map<File, nat>, scan: Scan) {
    && SearchInv(g, r, s, low, scan, {})
    && s.path != []
    && var v := s.path[|s.path| - 1];
       scan[v] == |Targets(g, v)| && low[v] == s.index[v]
  }

  /** The files of a root's component reach each other. */
  lemma ComponentConnected(g: Graph, r: Relation, s: Visits, low: map<File, nat>, scan: Scan, u: File, v: File)
    requires AtRoot(g, r, s, low, scan)
    requires u in Component(s, s.path[|s.path| - 1]) && v in Component(s, s.path[|s.path| - 1])
    ensures (u, v) in r
  {
    var n := |s.path| - 1;
    var root := s.path[n];
    assert ReachesOpen(g, r, s, u);
    var k :| 0 <= k <= n && Above(s, s.path[k], u) && (u, s.path[k]) in r;
    assert Above(s, s.path[k], root) && Above(s, root, v);
    Trans(g, r, u, s.path[k], root);
    Trans(g, r, u, root, v);
  }

  /** An edge out of a root's component leads back into it, or off the stack. */
  lemma ComponentEdges(g: Graph, r: Relation, s: Visits, low: map<File, nat>, scan: Scan, u: File, to: File)
    requires AtRoot(g, r, s, low, scan) && u in Component(s, s.path[|s.path| - 1]) && Edge(g, u, to)
    ensures to in Component(s, s.path[|s.path| - 1]) || (to in s.index && to !in s.onStack)
  {
    var n := |s.path| - 1;
    assert u !in s.path || u == s.path[n];
    var i :| 0 <= i < |Targets(g, u)| && Targets(g, u)[i] == to;
    assert Looked(g, s, scan, u, i);
    assert InSegment(s, n, u);
  }

  lemma PopOrdered(s: Visits)
    requires Ordered(s) && s.path != []
    ensures Ordered(Popped(s))
  {
    var t := Popped(s);
    var n := |t.path|;
    forall k | 0 <= k < n ensures t.path[k] in t.onStack {
      assert s.index[s.path[k]] < s.index[s.path[n]];
    }
  }

  lemma PopExplored(g: Graph, r: Relation, s: Visits)
    requires Explored(g, r, s) && s.path != [] && Ordered(Popped(s))
    ensures Explored(g, r, Popped(s))
  {
    var t := Popped(s);
    var n := |t.path|;
    forall k, u | 0 <= k < n && Above(t, t.path[k], u) ensures (t.path[k], u) in r {
      assert Above(s, s.path[k], u);
    }
    forall u | u in t.onStack ensures ReachesOpen(g, r, t, u) {
      assert ReachesOpen(g, r, s, u);
      var k :| 0 <= k <= n && Above(s, s.path[k], u) && (u, s.path[k]) in r;
      assert k < n && Above(t, t.path[k], u);
    }
  }

  lemma PopLinks(g: Graph, s: Visits, low: map<File, nat>, scan: Scan)
    requires Ordered(s) && s.path != [] && low.Keys == s.index.Keys && Ordered(Popped(s))
    requires LowBounds(g, s, low, scan)
    ensures LowBounds(g, Popped(s), low, scan)
  {
    var t := Popped(s);
    var n := |t.path|;
    forall k, u, i | InSegment(t, k, u) && Looked(g, t, scan, u, i) && Targets(g, u)[i] in t.onStack
      ensures low[t.path[k]] <= t.index[Targets(g, u)[i]]
    {
      assert t.path[k] == s.path[k];
      assert InSegment(s, k, u) && Looked(g, s, scan, u, i);
    }
  }

  lemma PopScanned(g: Graph, s: Visits, scan: Scan)
    requires Ordered(s) && Scanned(g, s, scan) && LookedVisited(g, s, scan, {}) && s.path != []
    ensures Scanned(g, Popped(s), scan) && LookedVisited(g, Popped(s), scan, {})
  {
    PopShrinks(s);
    var t, v := Popped(s), s.path[|s.path| - 1];
    hide Ordered, Popped;
    forall u | u in t.onStack && u in scan && u !in t.path ensures scan[u] == |Targets(g, u)| {
      assert u !in s.path;
    }
    forall u, i | Looked(g, t, scan, u, i) ensures Targets(g, u)[i] in t.index.Keys {
      assert Looked(g, s, scan, u, i);
    }
  }

  lemma PopShrinks(s: Visits)
    requires Ordered(s) && s.path != []
    ensures Popped(s).index == s.index && Popped(s).onStack <= s.onStack
    ensures s.path == Popped(s).path + [s.path[|s.path| - 1]]
    ensures s.path[|s.path| - 1] !in Popped(s).onStack
    ensures forall u :: u in Popped(s).onStack && u in s.path ==> u in Popped(s).path
  {
    var t, v := Popped(s), s.path[|s.path| - 1];
    assert s.path == t.path + [v];
    assert v !in t.onStack;
  }

  lemma PopLows(g: Graph, r: Relation, s: Visits, low: map<File, nat>, scan: Scan)
    requires AtRoot(g, r, s, low, scan) && Ordered(Popped(s))
    ensures LowsReached(g, r, Popped(s), low)
  {
    var t := Popped(s);
    var n := |t.path|;
    forall k | 0 <= k < n ensures LowReached(g, r, t, t.path[k], low[t.path[k]]) {
      var w := s.path[k];
      assert LowReached(g, r, s, s.path[k], low[s.path[k]]);
      var z :| Above(s, z, w) && s.index[z] == low[w] && (w, z) in r;
      assert s.index[w] < s.index[s.path[n]];
      assert Above(t, z, w);
    }
  }

  /** Taking a root's component off the stack keeps the invariant. */
  lemma PopKeepsInv(g: Graph, r: Relation, s: Visits, low: map<File, nat>, scan: Scan)
    requires AtRoot(g, r, s, low, scan)
    ensures SearchInv(g, r, Popped(s), low, scan, {})
  {
    PopOrdered(s);
    PopExplored(g, r, s);
    PopLinks(g, s, low, scan);
    PopLows(g, r, s, low, scan);
    PopScanned(g, s, scan);
  }

  // ----- a file whose edges are exhausted -----

  /** The parent takes over a smaller low link of the file below it. */
  ghost function PassedDown(path: seq<File>, low: map<File, nat>): map<File, nat>
    requires |path| > 1 ==> path[|path| - 1] in low && path[|path| - 2] in low
  {
    if |path| <= 1 then low else
      var v, parent := path[|path| - 1], path[|path| - 2];
      low[parent := Min(low[parent], low[v])]
  }

  function Min(a: nat, b: nat): nat {
    if b < a then b else a
  }

  lemma PassDownKeepsInv(g: Graph, r: Relation, s: Visits, low: map<File, nat>, scan: Scan)
    requires SearchInv(g, r, s, low, scan, {}) && s.path != []
    ensures SearchInv(g, r, s, PassedDown(s.path, low), scan, {})
  {
    hide Scanned, LookedVisited, LowBounds, LowsReached, LowReached, OpenReachUp, AllReachOpen, IsReach;
    var n := |s.path| - 1;
    if n > 0 {
      ParentReaches(g, r, s, low);
      LowerKeepsInv(g, r, s, low, scan, n - 1, Min(low[s.path[n - 1]], low[s.path[n]]));
    }
  }

  /** What an open file reaches, its parent on the path reaches too. */
  lemma ParentReaches(g: Graph, r: Relation, s: Visits, low: map<File, nat>)
    requires Explored(g, r, s) && low.Keys == s.index.Keys && LowsReached(g, r, s, low) && |s.path| > 1
    ensures var n := |s.path| - 1; LowReached(g, r, s, s.path[n - 1], Min(low[s.path[n - 1]], low[s.path[n]]))
  {
    var n := |s.path| - 1;
    var v, parent := s.path[n], s.path[n - 1];
    assert LowReached(g, r, s, s.path[n], low[s.path[n]]);
    assert LowReached(g, r, s, s.path[n - 1], low[s.path[n - 1]]);
    hide LowsReached, AllReachOpen;
    if low[v] < low[parent] {
      var z :| Above(s, z, v) && s.index[z] == low[v] && (v, z) in r;
      assert Above(s, parent, v) && Above(s, z, parent);
      Trans(g, r, parent, v, z);
    }
  }

  /** The bottom open file is always the root of its component. */
  lemma BottomIsRoot(g: Graph, r: Relation, s: Visits, low: map<File, nat>, scan: Scan)
    requires SearchInv(g, r, s, low, scan, {}) && |s.path| == 1
    ensures low[s.path[0]] == s.index[s.path[0]]
  {
    assert LowReached(g, r, s, s.path[0], low[s.path[0]]);
    var z :| Above(s, z, s.path[0]) && s.index[z] == low[s.path[0]] && (s.path[0], z) in r;
    assert ReachesOpen(g, r, s, z);
  }

  lemma FinishKeepsInv(g: Graph, r: Relation, s: Visits, low: map<File, nat>, scan: Scan)
    requires SearchInv(g, r, s, low, scan, {}) && s.path != []
    requires var v := s.path[|s.path| - 1]; scan[v] == |Targets(g, v)|
    ensures var v, low' := s.path[|s.path| - 1], PassedDown(s.path, low);
            && low'[v] == low[v]
            && (low[v] == s.index[v] ==>
                  AtRoot(g, r, s, low', scan) && SearchInv(g, r, Popped(s), low', scan, {}))
            && (low[v] != s.index[v] ==> SearchInv(g, r, Closed(s), low', scan, {}))
  {
    hide IsReach, OpenReachUp, AllReachOpen, LowBounds, LookedVisited, Scanned;
    var n := |s.path| - 1;
    var v, low' := s.path[n], PassedDown(s.path, low);
    PassDownKeepsInv(g, r, s, low, scan);
    assert n > 0 ==> s.index[s.path[n - 1]] < s.index[v];
    if low[v] == s.index[v] {
      PopKeepsInv(g, r, s, low', scan);
    } else {
      if n == 0 { BottomIsRoot(g, r, s, low, scan); }
      assert LowReached(g, r, s, s.path[n], low[s.path[n]]);
      CloseKeepsInv(g, r, s, low', scan);
    }
  }

  /** An edge to a visited file: the low link drops to a stack file's number. */
  ghost function Scanned1(s: Visits, low: map<File, nat>, v: File, to: File): map<File, nat>
    requires v in low && to in s.index
  {
    if to in s.onStack then low[v := Min(low[v], s.index[to])] else low
  }

  lemma ScanKeepsInv(g: Graph, r: Relation, s: Visits, low: map<File, nat>, scan: Scan, to: File)
    requires SearchInv(g, r, s, low, scan, {}) && s.path != [] && to in s.index
    requires var v := s.path[|s.path| - 1]; scan[v] < |Targets(g, v)| && Targets(g, v)[scan[v]] == to
    ensures var v := s.path[|s.path| - 1];
            SearchInv(g, r, s, Scanned1(s, low, v, to), scan[v := scan[v] + 1], {})
  {
    var n := |s.path| - 1;
    var v := s.path[n];
    assert LowReached(g, r, s, s.path[n], low[s.path[n]]);
    if to in s.onStack {
      OneEdge(g, r, v, to);
      if s.index[to] < low[v] { assert Above(s, to, v); }
      LowerKeepsInv(g, r, s, low, scan, n, Min(low[v], s.index[to]));
    }
    AdvanceKeepsInv(g, r, s, Scanned1(s, low, v, to), scan, to);
  }

  // ----- the whole state -----

  /** Every table of the search. `path` and `scan` restate what `work` holds. */
  datatype State = State(
    index: map<File, nat>,
    low: map<File, nat>,
    onStack: set<File>,
    stack: seq<File>,
    next: nat,
    work: seq<Frame>,
    path: seq<File>,
    scan: Scan,
    components: seq<seq<File>>)

  ghost function VisitsOf(t: State): Visits {
    Visits(t.index, t.onStack, t.path)
  }

  ghost predicate FramesAgree(work: seq<Frame>, path: seq<File>, scan: Scan) {
    && |work| == |path|
    && forall k :: 0 <= k < |work| ==> path[k] in scan && work[k] == Frame(path[k], scan[path[k]])
  }

  ghost predicate Numbered(index: map<File, nat>, next: nat) {
    forall v :: v in index ==> index[v] < next
  }

  /** The stack lists the files on it in the order they were numbered. */
  ghost predicate StackSorted(index: map<File, nat>, onStack: set<File>, stack: seq<File>) {
    && onStack == Members(stack)
    && onStack <= index.Keys
    && forall i, j :: 0 <= i < j < |stack| ==> index[stack[i]] < index[stack[j]]
  }

  ghost predicate Accounted(g: Graph, index: map<File, nat>, onStack: set<File>, components: seq<seq<File>>) {
    && index.Keys <= Files(g)
    && index.Keys == onStack + Emitted(components)
    && onStack !! Emitted(components)
    && GoodEmission(g, components)
  }

  ghost predicate Inv(g: Graph, r: Relation, t: State) {
    && SearchInv(g, r, VisitsOf(t), t.low, t.scan, {})
    && FramesAgree(t.work, t.path, t.scan)
    && Numbered(t.index, t.next)
    && StackSorted(t.index, t.onStack, t.stack)
    && Accounted(g, t.index, t.onStack, t.components)
  }

  ghost function Visit(t: State, v: File): State {
    t.(index := t.index[v := t.next], low := t.low[v := t.next], onStack := t.onStack + {v},
       stack := t.stack + [v], next := t.next + 1, work := t.work + [Frame(v, 0)],
       path := t.path + [v], scan := t.scan[v := 0])
  }

  ghost function Advance(t: State): State
    requires t.work != []
  {
    var f := t.work[|t.work| - 1];
    t.(work := t.work[|t.work| - 1 := Frame(f.node, f.edge + 1)], scan := t.scan[f.node := f.edge + 1])
  }

  lemma VisitTables(g: Graph, t: State, v: File)
    requires Numbered(t.index, t.next) && StackSorted(t.index, t.onStack, t.stack)
    requires FramesAgree(t.work, t.path, t.scan) && v !in t.index && v !in t.scan && v in Files(g)
    requires Accounted(g, t.index, t.onStack, t.components)
    ensures var u := Visit(t, v);
            && Numbered(u.index, u.next)
            && StackSorted(u.index, u.onStack, u.stack)
            && FramesAgree(u.work, u.path, u.scan)
            && Accounted(g, u.index, u.onStack, u.components)
  {
    var u := Visit(t, v);
    assert forall i :: 0 <= i < |t.stack| ==> t.stack[i] in t.onStack;
    assert Members(u.stack) == Members(t.stack) + {v};
  }

  lemma RootStep(g: Graph, r: Relation, t: State, v: File)
    requires Inv(g, r, t) && t.work == [] && v in g && v !in t.index
    ensures Inv(g, r, Visit(t, v))
  {
    VisitTables(g, t, v);
    assert LookedVisited(g, VisitsOf(t), t.scan, {v});
    VisitKeepsInv(g, r, VisitsOf(t), t.low, t.scan, v, t.next);
  }

  lemma AdvanceFrames(t: State)
    requires FramesAgree(t.work, t.path, t.scan) && t.work != []
    requires forall k, l :: 0 <= k < l < |t.path| ==> t.path[k] != t.path[l]
    ensures FramesAgree(Advance(t).work, t.path, Advance(t).scan)
  {
  }

  lemma PathDistinct(s: Visits)
    requires Ordered(s)
    ensures forall k, l :: 0 <= k < l < |s.path| ==> s.path[k] != s.path[l]
  {
    forall k, l | 0 <= k < l < |s.path| ensures s.path[k] != s.path[l] {
      assert s.index[s.path[k]] < s.index[s.path[l]];
    }
  }

  lemma TargetIsFile(g: Graph, u: File, v: File)
    requires Edge(g, u, v)
    ensures v in Files(g)
  {
  }

  lemma TopFrame(g: Graph, r: Relation, t: State)
    requires Inv(g, r, t) && t.work != []
    ensures |t.path| == |t.work|
    ensures var f := t.work[|t.work| - 1];
            && f.node == t.path[|t.path| - 1]
            && f.node in t.scan && t.scan[f.node] == f.edge
            && f.node in t.low
            && t.scan.Keys == t.low.Keys == t.index.Keys
            && Ordered(VisitsOf(t))
            && (|t.path| > 1 ==> t.path[|t.path| - 2] in t.low)
  {
  }

  lemma ChildStep(g: Graph, r: Relation, t: State)
    requires Inv(g, r, t) && t.work != []
    requires var f := t.work[|t.work| - 1];
             f.edge < |Targets(g, f.node)| && Targets(g, f.node)[f.edge] !in t.index
    ensures var f := t.work[|t.work| - 1];
            Inv(g, r, Visit(Advance(t), Targets(g, f.node)[f.edge]))
  {
    hide SearchInv, GoodEmission, Files, StackSorted, Accounted, FramesAgree, Ordered;
    TopFrame(g, r, t);
    var f := t.work[|t.work| - 1];
    var v := Targets(g, f.node)[f.edge];
    var s := VisitsOf(t);
    TargetIsFile(g, f.node, v);
    AdvanceKeepsInv(g, r, s, t.low, t.scan, v);
    PathDistinct(s);
    AdvanceFrames(t);
    VisitTables(g, Advance(t), v);
    VisitKeepsInv(g, r, s, t.low, Advance(t).scan, v, t.next);
  }

  lemma ScanStep(g: Graph, r: Relation, t: State)
    requires Inv(g, r, t) && t.work != []
    requires var f := t.work[|t.work| - 1];
             f.edge < |Targets(g, f.node)| && Targets(g, f.node)[f.edge] in t.index
    ensures var f := t.work[|t.work| - 1];
            Inv(g, r, Advance(t).(low := Scanned1(VisitsOf(t), t.low, f.node, Targets(g, f.node)[f.edge])))
  {
    hide SearchInv, GoodEmission, Files, StackSorted, Accounted, FramesAgree, Ordered;
    TopFrame(g, r, t);
    var f := t.work[|t.work| - 1];
    ScanKeepsInv(g, r, VisitsOf(t), t.low, t.scan, Targets(g, f.node)[f.edge]);
    PathDistinct(VisitsOf(t));
    AdvanceFrames(t);
  }

  /** The frame of an exhausted file goes; its parent takes over its low link. */
  ghost function Leave(t: State): State
    requires t.path != [] && t.work != []
    requires |t.path| > 1 ==> t.path[|t.path| - 1] in t.low && t.path[|t.path| - 2] in t.low
  {
    t.(work := t.work[..|t.work| - 1], path := t.path[..|t.path| - 1], low := PassedDown(t.path, t.low))
  }

  lemma LeaveFrames(work: seq<Frame>, path: seq<File>, scan: Scan)
    requires FramesAgree(work, path, scan) && work != []
    ensures FramesAgree(work[..|work| - 1], path[..|path| - 1], scan)
  {
  }

  lemma LeaveStep(g: Graph, r: Relation, t: State)
    requires Inv(g, r, t) && t.work != []
    requires var f := t.work[|t.work| - 1]; f.edge == |Targets(g, f.node)| && t.low[f.node] != t.index[f.node]
    ensures Inv(g, r, Leave(t))
  {
    hide SearchInv, GoodEmission, Files, StackSorted, Accounted, FramesAgree, Ordered;
    TopFrame(g, r, t);
    FinishKeepsInv(g, r, VisitsOf(t), t.low, t.scan);
    LeaveFrames(t.work, t.path, t.scan);
  }

  /** The top of the stack from the root up is the root's component. */
  lemma StackTop(index: map<File, nat>, onStack: set<File>, stack: seq<File>, path: seq<File>, at: nat)
    requires StackSorted(index, onStack, stack) && at < |stack|
    ensures Members(stack[at..]) == Component(Visits(index, onStack, path), stack[at])
    ensures StackSorted(index, onStack - Members(stack[at..]), stack[..at])
  {
    var s := Visits(index, onStack, path);
    forall u | u in stack[at..] ensures u in Component(s, stack[at]) {
      var i :| at <= i < |stack| && stack[i] == u;
    }
    forall u | u in Component(s, stack[at]) ensures u in stack[at..] {
      var i :| 0 <= i < |stack| && stack[i] == u;
      assert stack[at..][i - at] == u;
    }
    forall u ensures u in onStack - Members(stack[at..]) <==> u in stack[..at] {
      if u in stack[..at] {
        var i :| 0 <= i < at && stack[i] == u;
      }
    }
  }

  /** `c` lists the stack from position `at` upwards, top first. */
  ghost predicate TopFirst(stack: seq<File>, at: nat, c: seq<File>) {
    && at < |stack|
    && |c| == |stack| - at
    && forall i :: 0 <= i < |c| ==> c[i] == stack[|stack| - 1 - i]
  }

  lemma TopFirstMembers(index: map<File, nat>, onStack: set<File>, stack: seq<File>, at: nat, c: seq<File>)
    requires StackSorted(index, onStack, stack) && TopFirst(stack, at, c)
    ensures Members(c) == Members(stack[at..]) && Distinct(c) && c != []
  {
    forall u | u in stack[at..] ensures u in c {
      var i :| 0 <= i < |stack| - at && stack[at..][i] == u;
      assert c[|stack| - 1 - at - i] == u;
    }
    forall u | u in c ensures u in stack[at..] {
      var i :| 0 <= i < |c| && c[i] == u;
      assert stack[at..][|c| - 1 - i] == u;
    }
  }

  lemma ComponentAccounted(g: Graph, r: Relation, t: State, low: map<File, nat>, c: seq<File>)
    requires AtRoot(g, r, VisitsOf(t), low, t.scan) && c != [] && Distinct(c)
    requires Accounted(g, t.index, t.onStack, t.components)
    requires Members(c) == Component(VisitsOf(t), t.path[|t.path| - 1])
    ensures Accounted(g, t.index, t.onStack - Members(c), t.components + [c])
  {
    hide GoodEmission, SearchInv, Component, Files, Distinct;
    assert IsReach(g, r) by { ReachOf(g, r, t, low); }
    forall u, v | u in c && v in c ensures Reaches(g, u, v) {
      assert u in Members(c) && v in Members(c);
      ComponentConnected(g, r, VisitsOf(t), low, t.scan, u, v);
    }
    forall u, v | u in c && Edge(g, u, v) ensures v in c || v in Emitted(t.components) {
      assert u in Members(c);
      ComponentEdges(g, r, VisitsOf(t), low, t.scan, u, v);
    }
    ComponentOnStack(VisitsOf(t), t.path[|t.path| - 1]);
    GoodEmissionAppend(g, t.components, c);
    EmittedAppend(t.components, c);
  }

  lemma ReachOf(g: Graph, r: Relation, t: State, low: map<File, nat>)
    requires AtRoot(g, r, VisitsOf(t), low, t.scan)
    ensures IsReach(g, r) && t.onStack <= t.index.Keys
  {
  }

  lemma ComponentOnStack(s: Visits, root: File)
    requires s.onStack <= s.index.Keys
    ensures Component(s, root) <= s.onStack
  {
  }

  ghost function Emit(t: State, at: nat, c: seq<File>): State
    requires t.path != [] && t.work != []
    requires |t.path| > 1 ==> t.path[|t.path| - 1] in t.low && t.path[|t.path| - 2] in t.low
    requires at <= |t.stack|
  {
    Leave(t).(stack := t.stack[..at], onStack := t.onStack - Members(c), components := t.components + [c])
  }

  lemma EmitStep(g: Graph, r: Relation, t: State, at: nat, c: seq<File>)
    requires Inv(g, r, t) && t.work != [] && TopFirst(t.stack, at, c)
    requires var f := t.work[|t.work| - 1];
             f.edge == |Targets(g, f.node)| && t.low[f.node] == t.index[f.node] && t.stack[at] == f.node
    ensures Inv(g, r, Emit(t, at, c))
  {
    hide SearchInv, GoodEmission, Files, StackSorted, Accounted, FramesAgree, Ordered, AtRoot, Component;
    TopFrame(g, r, t);
    var s := VisitsOf(t);
    FinishKeepsInv(g, r, s, t.low, t.scan);
    LeaveFrames(t.work, t.path, t.scan);
    TopFirstMembers(t.index, t.onStack, t.stack, at, c);
    StackTop(t.index, t.onStack, t.stack, t.path, at);
    ComponentAccounted(g, r, t, PassedDown(t.path, t.low), c);
  }

  // ----- the program -----

  /** The do-while loop that takes a component off the stack. */
  method PopComponent(stack: seq<File>, onStack: set<File>, node: File)
    returns (stack': seq<File>, onStack': set<File>, component: seq<File>)
    requires node in stack && Distinct(stack)
    ensures stack' < stack && stack[|stack'|] == node && TopFirst(stack, |stack'|, component)
    ensures onStack' == onStack - Members(component)
  {
    stack', onStack', component := stack, onStack, [];
    var popped := false;
    while !popped
      invariant stack' <= stack && |component| == |stack| - |stack'|
      invariant forall i :: 0 <= i < |component| ==> component[i] == stack[|stack| - 1 - i]
      invariant onStack' == onStack - Members(component)
      invariant !popped ==> node in stack'
      invariant popped ==> |stack'| < |stack| && stack[|stack'|] == node
      decreases |stack'|, !popped
    {
      var member := stack'[|stack'| - 1];
      stack' := stack'[..|stack'| - 1];
      onStack' := onStack' - {member};
      component := component + [member];
      popped := member == node;
    }
  }

  /** `components.filter(...)`: those with more than one file, or a self-import. */
  method KeepCycles(g: Graph, components: seq<seq<File>>) returns (cycles: seq<seq<File>>, ghost at: seq<nat>)
    ensures IsFiltered(g, components, cycles, at)
  {
    cycles, at := [], [];
    for i := 0 to |components|
      invariant |at| == |cycles|
      invariant forall k :: 0 <= k < |at| ==>
        at[k] < i && cycles[k] == components[at[k]] && FormsCycle(g, components[at[k]])
      invariant forall k, l :: 0 <= k < l < |at| ==> at[k] < at[l]
      invariant forall j :: 0 <= j < i && FormsCycle(g, components[j]) ==> j in at
    {
      if FormsCycle(g, components[i]) {
        cycles, at := cycles + [components[i]], at + [i];
      }
    }
  }

  lemma StackDistinct(index: map<File, nat>, onStack: set<File>, stack: seq<File>)
    requires StackSorted(index, onStack, stack)
    ensures Distinct(stack)
  {
    forall i, j | 0 <= i < j < |stack| ensures stack[i] != stack[j] {
      assert index[stack[i]] < index[stack[j]];
    }
  }

  lemma TopOnStack(g: Graph, r: Relation, t: State)
    requires Inv(g, r, t) && t.work != []
    ensures t.work[|t.work| - 1].node in t.stack && Distinct(t.stack)
    ensures t.work[|t.work| - 1].node in t.index && t.work[|t.work| - 1].node in t.low
    ensures t.work[|t.work| - 1].edge <= |Targets(g, t.work[|t.work| - 1].node)|
    ensures |t.path| == |t.work| && t.path[|t.path| - 1] == t.work[|t.work| - 1].node
    ensures |t.work| > 1 ==>
              var parent := t.work[|t.work| - 2].node;
              parent in t.low && parent == t.path[|t.path| - 2] && parent != t.work[|t.work| - 1].node
  {
    assert |t.path| > 1 ==> t.index[t.path[|t.path| - 2]] < t.index[t.path[|t.path| - 1]];
    StackDistinct(t.index, t.onStack, t.stack);
    assert t.work[|t.work| - 1].node == t.path[|t.path| - 1];
    assert t.path[|t.path| - 1] in t.onStack;
  }

  lemma NoMembers(stack: seq<File>)
    ensures Members(stack) == {} ==> stack == []
  {
    if stack != [] { assert stack[0] in Members(stack); }
  }

  /** With no open file left, everything visited has been emitted. */
  lemma NothingOpen(g: Graph, r: Relation, t: State)
    requires Inv(g, r, t) && t.work == []
    ensures t.onStack == {} && t.stack == [] && t.index.Keys == Emitted(t.components)
    ensures GoodEmission(g, t.components) && Emitted(t.components) <= Files(g)
    ensures ClosedUnderEdges(g, Emitted(t.components))
  {
    forall u ensures u !in t.onStack {
      assert u in t.onStack ==> ReachesOpen(g, r, VisitsOf(t), u);
    }
    NoMembers(t.stack);
    assert t.components[..|t.components|] == t.components;
  }

  lemma EmptyState(g: Graph, r: Relation)
    requires IsReach(g, r)
    ensures Inv(g, r, State(map[], map[], {}, [], 0, [], [], map[], []))
  {
    var none: seq<seq<File>> := [];
    assert none[..0] == none && Emitted(none) == {};
  }

  lemma ReachRelation(g: Graph) returns (r: Relation)
    ensures IsReach(g, r)
  {
    r := iset u, v | Reaches(g, u, v) :: (u, v);
  }

  lemma ClosedCoversFiles(g: Graph, s: set<File>)
    requires g.Keys <= s <= Files(g) && ClosedUnderEdges(g, s)
    ensures s == Files(g)
  {
    forall v | v in Files(g) ensures v in s {
      if v !in g {
        var u :| u in g && v in g[u];
        assert Edge(g, u, v);
      }
    }
  }

  lemma OneLeftFewer(files: set<File>, index: map<File, nat>, v: File, n: nat)
    requires v in files && v !in index
    ensures files - index[v := n].Keys < files - index.Keys
  {
    assert v in files - index.Keys;
  }

  /** An edge to a visited file: the low link drops to its number if it is on the stack. */
  method LowerLow(g: Graph, ghost r: Relation, ghost was: State, index: map<File, nat>, low: map<File, nat>,
                  onStack: set<File>, node: File, to: File) returns (low': map<File, nat>)
    requires Inv(g, r, was) && was.work != [] && was.work[|was.work| - 1].node == node
    requires index == was.index && low == was.low && onStack == was.onStack
    requires var edge := was.work[|was.work| - 1].edge; edge < |Targets(g, node)| && Targets(g, node)[edge] == to
    requires to in index && node in low
    ensures Inv(g, r, Advance(was).(low := low'))
  {
    hide Inv;
    ScanStep(g, r, was);
    low' := low;
    if to in onStack {
      low' := low[node := Min(low[node], index[to])];
    }
    assert low' == Scanned1(VisitsOf(was), was.low, node, to);
  }

  /** An exhausted file hands its low link down and, if it is a root, gives up its component. */
  method CloseFrame(g: Graph, ghost r: Relation, ghost was: State, index: map<File, nat>, low: map<File, nat>,
                    onStack: set<File>, stack: seq<File>, work: seq<Frame>, node: File)
    returns (low': map<File, nat>, onStack': set<File>, stack': seq<File>, emitted: seq<seq<File>>)
    requires Inv(g, r, was) && was.work != [] && was.work[|was.work| - 1] == Frame(node, |Targets(g, node)|)
    requires index == was.index && low == was.low && onStack == was.onStack && stack == was.stack
    requires work == was.work[..|was.work| - 1]
    ensures |was.path| > 0
    ensures Inv(g, r, was.(low := low', onStack := onStack', stack := stack', work := work,
                           path := was.path[..|was.path| - 1], components := was.components + emitted))
  {
    hide Inv, GoodEmission, Emitted, Files, IsReach, Ordered, Distinct, TopFirst, ClosedUnderEdges;
    TopOnStack(g, r, was);
    low', onStack', stack', emitted := low, onStack, stack, [];
    if work != [] {
      var parent := work[|work| - 1].node;
      low' := low'[parent := Min(low'[parent], low'[node])];
    }
    if low'[node] == index[node] {
      var component;
      stack', onStack', component := PopComponent(stack, onStack, node);
      emitted := [component];
      EmitStep(g, r, was, |stack'|, component);
      assert was.(low := low', onStack := onStack', stack := stack', work := work,
                  path := was.path[..|was.path| - 1], components := was.components + emitted)
          == Emit(was, |stack'|, component);
    } else {
      LeaveStep(g, r, was);
      assert was.(low := low', work := work, path := was.path[..|was.path| - 1], components := was.components + [])
          == Leave(was);
    }
  }

  /**
   * The search from every file in turn, in whatever order the map lists its
   * keys: the emitted components cover the graph.
   */
  method Components(g: Graph) returns (components: seq<seq<File>>)
    ensures GoodEmission(g, components) && Emitted(components) == Files(g)
  {
    hide Inv, GoodEmission, Emitted, Files, IsReach, Ordered, Distinct, TopFirst, ClosedUnderEdges;
    ghost var r := ReachRelation(g);
    var index: map<File, nat>, low: map<File, nat> := map[], map[];
    var onStack: set<File>, stack: seq<File>, next: nat := {}, [], 0;
    var work: seq<Frame> := [];
    ghost var path: seq<File>, scan: Scan := [], map[];
    components := [];
    EmptyState(g, r);

    var starts := g.Keys;
    while starts != {}
      invariant starts <= g.Keys && g.Keys - starts <= index.Keys && work == []
      invariant Inv(g, r, State(index, low, onStack, stack, next, work, path, scan, components))
    {
      var start :| start in starts;
      starts := starts - {start};
      if start !in index {
        RootStep(g, r, State(index, low, onStack, stack, next, work, path, scan, components), start);
        index, low := index[start := next], low[start := next];
        onStack, stack, next := onStack + {start}, stack + [start], next + 1;
        work, path, scan := work + [Frame(start, 0)], path + [start], scan[start := 0];
        while work != []
          invariant g.Keys - starts <= index.Keys
          invariant Inv(g, r, State(index, low, onStack, stack, next, work, path, scan, components))
          decreases Files(g) - index.Keys, |work|,
                    if work == [] then 0
                    else |Targets(g, work[|work| - 1].node)| - work[|work| - 1].edge
        {
          ghost var was := State(index, low, onStack, stack, next, work, path, scan, components);
          var frame := work[|work| - 1];
          var edges := Targets(g, frame.node);
          TopOnStack(g, r, was);
          if frame.edge < |edges| {
            var to := edges[frame.edge];
            work := work[|work| - 1 := Frame(frame.node, frame.edge + 1)];
            scan := scan[frame.node := frame.edge + 1];
            if to !in index {
              ChildStep(g, r, was);
              TargetIsFile(g, frame.node, to);
              index, low := index[to := next], low[to := next];
              onStack, stack, next := onStack + {to}, stack + [to], next + 1;
              work, path, scan := work + [Frame(to, 0)], path + [to], scan[to := 0];
              assert State(index, low, onStack, stack, next, work, path, scan, components) == Visit(Advance(was), to);
              OneLeftFewer(Files(g), was.index, to, was.next);
            } else {
              low := LowerLow(g, r, was, index, low, onStack, frame.node, to);
              assert State(index, low, onStack, stack, next, work, path, scan, components) == Advance(was).(low := low);
            }
          } else {
            work, path := work[..|work| - 1], path[..|path| - 1];
            var emitted;
            low, onStack, stack, emitted := CloseFrame(g, r, was, index, low, onStack, stack, work, frame.node);
            components := components + emitted;
          }
        }
      }
    }
    NothingOpen(g, r, State(index, low, onStack, stack, next, work, path, scan, components));
    ClosedCoversFiles(g, Emitted(components));
  }

  /**
   * The report: exactly the maximal strongly connected sets that contain a
   * cycle, and empty exactly when the imports have a load order.
   */
  method FindCycles(g: Graph) returns (cycles: seq<seq<File>>)
    ensures IsCycleReport(g, cycles)
    ensures cycles == [] <==> exists order :: IsLoadOrder(g, order)
  {
    var components := Components(g);
    ghost var at;
    cycles, at := KeepCycles(g, components);
    FilteredIsReport(g, components, cycles, at);
    if cycles == [] {
      AcyclicEmissionIsLoadOrder(g, components);
    } else {
      ReportExcludesLoadOrder(g, cycles);
    }
  }

  lemma ReportExcludesLoadOrder(g: Graph, cycles: seq<seq<File>>)
    requires IsCycleReport(g, cycles) && cycles != []
    ensures !exists order :: IsLoadOrder(g, order)
  {
    assert IsStrongComponent(g, cycles[0]);
    var v := cycles[0][0];
    assert OnCycle(g, v);
    forall order | IsLoadOrder(g, order) ensures false {
      LoadOrderExcludesCycles(g, order, v);
    }
  }
}
