/**
 * The test-shard planner of scripts/shard-tests.js: files are ordered heaviest
 * first, ties by path, and each goes to the shard with the least time so far.
 *
 * `Plan` keeps the source's loops. Its promise is stated against an arbitrary
 * competing assignment: the fullest shard is within 4/3 - 1/(3m) of the
 * fullest shard of any other way to split the same files over m shards.
 */
module ShardPlan {
  import TextOrder

  datatype File = File(path: string)

  const UNLISTED_SECONDS: nat := 10
  const PER_FILE_SECONDS: nat := 2

  type Durations = map<File, nat>

  function Weight(durations: Durations, f: File): (w: nat) {
    (if f in durations then durations[f] else UNLISTED_SECONDS) + PER_FILE_SECONDS
  }

  // ----- jobs, loads and assignments -----

  /** What machine `s` carries of the first `k` jobs under assignment `a`. */
  ghost function Load(a: seq<nat>, v: seq<nat>, k: nat, s: nat): nat
    requires k <= |a| && k <= |v|
  {
    if k == 0 then 0 else Load(a, v, k - 1, s) + (if a[k - 1] == s then v[k - 1] else 0)
  }

  ghost function Total(v: seq<nat>, k: nat): nat
    requires k <= |v|
  {
    if k == 0 then 0 else Total(v, k - 1) + v[k - 1]
  }

  ghost function SumLoads(a: seq<nat>, v: seq<nat>, k: nat, m: nat): nat
    requires k <= |a| && k <= |v|
  {
    if m == 0 then 0 else SumLoads(a, v, k, m - 1) + Load(a, v, k, m - 1)
  }

  ghost predicate Assigns(a: seq<nat>, n: nat, m: nat) {
    |a| == n && forall i :: 0 <= i < n ==> a[i] < m
  }

  /** Each job went to a machine with the least load at that moment. */
  ghost predicate Greedy(p: seq<nat>, w: seq<nat>, m: nat) {
    && Assigns(p, |w|, m)
    && forall i: nat, s: nat {:trigger Load(p, w, i, s)} ::
         i < |w| && s < m ==> Load(p, w, i, p[i]) <= Load(p, w, i, s)
  }

  ghost predicate HeaviestFirst(w: seq<nat>) {
    forall i, j :: 0 <= i < j < |w| ==> w[j] <= w[i]
  }

  ghost predicate FitsWithin(a: seq<nat>, w: seq<nat>, m: nat, cap: nat)
    requires |a| == |w|
  {
    forall t: nat :: t < m ==> Load(a, w, |w|, t) <= cap
  }

  lemma {:induction false} SumLoadsStep(a: seq<nat>, v: seq<nat>, k: nat, m: nat)
    requires 0 < k <= |a| && k <= |v|
    ensures SumLoads(a, v, k, m) == SumLoads(a, v, k - 1, m) + (if a[k - 1] < m then v[k - 1] else 0)
  {
    if m > 0 { SumLoadsStep(a, v, k, m - 1); }
  }

  lemma {:induction false} SumLoadsIsTotal(a: seq<nat>, v: seq<nat>, k: nat, m: nat)
    requires k <= |a| && k <= |v| && forall i :: 0 <= i < k ==> a[i] < m
    ensures SumLoads(a, v, k, m) == Total(v, k)
  {
    if k == 0 {
      SumLoadsEmpty(a, v, m);
    } else {
      SumLoadsStep(a, v, k, m);
      SumLoadsIsTotal(a, v, k - 1, m);
    }
  }

  lemma {:induction false} SumLoadsEmpty(a: seq<nat>, v: seq<nat>, m: nat)
    ensures SumLoads(a, v, 0, m) == 0
  {
    if m > 0 { SumLoadsEmpty(a, v, m - 1); }
  }

  lemma {:induction false} SumLoadsAtLeast(a: seq<nat>, v: seq<nat>, k: nat, m: nat, x: nat)
    requires k <= |a| && k <= |v| && forall s: nat :: s < m ==> x <= Load(a, v, k, s)
    ensures m * x <= SumLoads(a, v, k, m)
  {
    if m > 0 {
      SumLoadsAtLeast(a, v, k, m - 1, x);
      assert m * x == (m - 1) * x + x;
    }
  }

  lemma {:induction false} SumLoadsAtMost(a: seq<nat>, v: seq<nat>, k: nat, m: nat, x: nat)
    requires k <= |a| && k <= |v| && forall s: nat :: s < m ==> Load(a, v, k, s) <= x
    ensures SumLoads(a, v, k, m) <= m * x
  {
    if m > 0 {
      SumLoadsAtMost(a, v, k, m - 1, x);
      assert m * x == (m - 1) * x + x;
    }
  }

  lemma {:induction false} LoadMonotone(a: seq<nat>, v: seq<nat>, j: nat, k: nat, s: nat)
    requires j <= k <= |a| && k <= |v|
    ensures Load(a, v, j, s) <= Load(a, v, k, s)
    decreases k
  {
    if j < k { LoadMonotone(a, v, j, k - 1, s); }
  }

  /** The last job on a machine that carries anything. */
  lemma {:induction false} LastJob(a: seq<nat>, v: seq<nat>, k: nat, s: nat) returns (j: nat)
    requires k <= |a| && k <= |v| && Load(a, v, k, s) > 0
    ensures j < k && a[j] == s && Load(a, v, k, s) == Load(a, v, j, s) + v[j]
  {
    if a[k - 1] == s { j := k - 1; } else { j := LastJob(a, v, k - 1, s); }
  }

  // ----- the spread at every step -----

  /** At every step, any two shards differ by at most the heaviest weight so far. */
  lemma {:induction false} SpreadWithinHeaviest(p: seq<nat>, w: seq<nat>, m: nat, k: nat, top: nat, s: nat, t: nat)
    requires Greedy(p, w, m) && k <= |w| && s < m && t < m
    requires forall i :: 0 <= i < k ==> w[i] <= top
    ensures Load(p, w, k, s) <= Load(p, w, k, t) + top
  {
    if k > 0 {
      SpreadWithinHeaviest(p, w, m, k - 1, top, s, t);
      assert Load(p, w, k - 1, p[k - 1]) <= Load(p, w, k - 1, t);
    }
  }

  // ----- any order: 2 - 1/m -----

  /** Where the fullest shard's last job went, every shard was at least that full. */
  lemma AverageBound(p: seq<nat>, w: seq<nat>, m: nat, j: nat)
    requires Greedy(p, w, m) && j < |w|
    ensures m * Load(p, w, j, p[j]) + w[j] <= Total(w, j + 1)
  {
    SumLoadsAtLeast(p, w, j, m, Load(p, w, j, p[j]));
    SumLoadsIsTotal(p, w, j, m);
  }

  /** What any assignment must carry: the average, and each single job. */
  lemma CapBounds(a: seq<nat>, w: seq<nat>, m: nat, cap: nat, j: nat)
    requires Assigns(a, |w|, m) && FitsWithin(a, w, m, cap) && j < |w|
    ensures Total(w, j + 1) <= m * cap && w[j] <= cap
  {
    var k := j + 1;
    forall s: nat | s < m ensures Load(a, w, k, s) <= cap {
      LoadMonotone(a, w, k, |w|, s);
    }
    SumLoadsAtMost(a, w, k, m, cap);
    SumLoadsIsTotal(a, w, k, m);
    assert w[j] <= Load(a, w, k, a[j]);
  }

  lemma TwoArithmetic(m: nat, before: nat, x: nat, cap: nat)
    requires m > 0 && m * before + x <= m * cap && x <= cap
    ensures m * (before + x) <= (2 * m - 1) * cap
  {
    var u, v := (m - 1) * x, (m - 1) * cap;
    assert u <= v by { MulMonotone(m - 1, x, cap); }
    assert m * (before + x) == m * before + x + u;
    assert (2 * m - 1) * cap == m * cap + v;
  }

  /** Least-loaded placement, in any order, is within 2 - 1/m of every assignment. */
  lemma GreedyWithinTwo(p: seq<nat>, a: seq<nat>, w: seq<nat>, m: nat, cap: nat, s: nat)
    requires Greedy(p, w, m) && Assigns(a, |w|, m) && FitsWithin(a, w, m, cap) && s < m
    ensures m * Load(p, w, |w|, s) <= (2 * m - 1) * cap
  {
    if Load(p, w, |w|, s) > 0 {
      var j := LastJob(p, w, |w|, s);
      AverageBound(p, w, m, j);
      CapBounds(a, w, m, cap, j);
      TwoArithmetic(m, Load(p, w, j, s), w[j], cap);
    } else {
      MulMonotone(2 * m - 1, 0, cap);
    }
  }

  lemma MulMonotone(k: nat, x: int, y: int)
    requires x <= y
    ensures k * x <= k * y
  {
  }

  // ----- heaviest first: 4/3 - 1/(3m) -----

  /** A job counts double when it cannot share a machine with job `j` under `cap`. */
  ghost function Slots(w: seq<nat>, j: nat, cap: nat): seq<nat>
    requires j < |w|
  {
    seq(|w|, i requires 0 <= i < |w| => if w[i] + w[j] > cap then 2 else 1)
  }

  /**
   * On a machine that stays within `cap`, jobs heavier than a third of it fill
   * at most two slots.
   */
  lemma {:induction false} AtMostTwoSlots(a: seq<nat>, w: seq<nat>, j: nat, cap: nat, k: nat, s: nat)
    requires |a| == |w| && j < |w| && k <= j + 1 && HeaviestFirst(w) && 3 * w[j] > cap
    requires Load(a, w, k, s) <= cap
    ensures Load(a, Slots(w, j, cap), k, s) <= 2
    ensures Load(a, Slots(w, j, cap), k, s) == 0 ==> Load(a, w, k, s) == 0
    ensures Load(a, Slots(w, j, cap), k, s) == 1 ==> w[j] <= Load(a, w, k, s)
    ensures Load(a, Slots(w, j, cap), k, s) == 2 ==> 2 * w[j] <= Load(a, w, k, s) || cap < Load(a, w, k, s) + w[j]
  {
    if k > 0 {
      AtMostTwoSlots(a, w, j, cap, k - 1, s);
      assert w[j] <= w[k - 1];
    }
  }

  /** A machine fuller than `cap - w[j]` has both slots taken. */
  lemma {:induction false} TwoSlotsTaken(p: seq<nat>, w: seq<nat>, j: nat, cap: nat, k: nat, s: nat)
    requires |p| == |w| && j < |w| && k <= |w| && w[j] <= cap
    ensures Load(p, w, k, s) > 0 ==> 1 <= Load(p, Slots(w, j, cap), k, s)
    ensures cap < Load(p, w, k, s) + w[j] ==> 2 <= Load(p, Slots(w, j, cap), k, s)
  {
    if k > 0 { TwoSlotsTaken(p, w, j, cap, k - 1, s); }
  }

  lemma SlotsOffered(a: seq<nat>, w: seq<nat>, m: nat, cap: nat, j: nat)
    requires HeaviestFirst(w) && Assigns(a, |w|, m) && FitsWithin(a, w, m, cap) && j < |w| && 3 * w[j] > cap
    ensures Total(Slots(w, j, cap), j + 1) <= 2 * m
  {
    var c, k := Slots(w, j, cap), j + 1;
    forall s: nat | s < m ensures Load(a, c, k, s) <= 2 {
      LoadMonotone(a, w, k, |w|, s);
      AtMostTwoSlots(a, w, j, cap, k, s);
    }
    SumLoadsAtMost(a, c, k, m, 2);
    SumLoadsIsTotal(a, c, k, m);
  }

  lemma SlotsUsed(p: seq<nat>, w: seq<nat>, m: nat, cap: nat, j: nat)
    requires Greedy(p, w, m) && j < |w| && w[j] <= cap && cap < Load(p, w, j, p[j]) + w[j]
    ensures 2 * m <= Total(Slots(w, j, cap), j)
  {
    var c := Slots(w, j, cap);
    forall s: nat | s < m ensures 2 <= Load(p, c, j, s) {
      assert Load(p, w, j, p[j]) <= Load(p, w, j, s);
      TwoSlotsTaken(p, w, j, cap, j, s);
    }
    SumLoadsAtLeast(p, c, j, m, 2);
    SumLoadsIsTotal(p, c, j, m);
  }

  /** When job `j` is heavier than a third of `cap`, greedy fits within `cap` too. */
  lemma BigJobsFit(p: seq<nat>, a: seq<nat>, w: seq<nat>, m: nat, cap: nat, j: nat)
    requires Greedy(p, w, m) && HeaviestFirst(w) && Assigns(a, |w|, m) && FitsWithin(a, w, m, cap)
    requires j < |w| && 3 * w[j] > cap
    ensures Load(p, w, j, p[j]) + w[j] <= cap
  {
    hide HeaviestFirst, FitsWithin, Load;
    CapBounds(a, w, m, cap, j);
    SlotsOffered(a, w, m, cap, j);
    if cap < Load(p, w, j, p[j]) + w[j] {
      SlotsUsed(p, w, m, cap, j);
      assert false;
    }
  }

  lemma FourThirdsArithmetic(m: nat, before: nat, x: nat, cap: nat)
    requires m > 0
    requires before + x <= cap || (m * before + x <= m * cap && 3 * x <= cap)
    ensures 3 * m * (before + x) <= (4 * m - 1) * cap
  {
    var v := (m - 1) * cap;
    assert 0 <= v by { MulMonotone(m - 1, 0, cap); }
    assert (4 * m - 1) * cap == 3 * (m * cap) + v;
    if before + x <= cap {
      MulMonotone(3 * m, before + x, cap);
    } else {
      var u := (m - 1) * (3 * x);
      assert u <= v by { MulMonotone(m - 1, 3 * x, cap); }
      assert 3 * m * (before + x) == 3 * (m * before + x) + u;
    }
  }

  /** Heaviest-first least-loaded placement is within 4/3 - 1/(3m) of every assignment. */
  lemma GreedyWithinFourThirds(p: seq<nat>, a: seq<nat>, w: seq<nat>, m: nat, cap: nat, s: nat)
    requires Greedy(p, w, m) && HeaviestFirst(w) && Assigns(a, |w|, m) && FitsWithin(a, w, m, cap) && s < m
    ensures 3 * m * Load(p, w, |w|, s) <= (4 * m - 1) * cap
  {
    if Load(p, w, |w|, s) > 0 {
      var j := LastJob(p, w, |w|, s);
      if 3 * w[j] > cap {
        BigJobsFit(p, a, w, m, cap, j);
      } else {
        AverageBound(p, w, m, j);
        CapBounds(a, w, m, cap, j);
      }
      FourThirdsArithmetic(m, Load(p, w, j, s), w[j], cap);
    } else {
      MulMonotone(4 * m - 1, 0, cap);
    }
  }

  // ----- the file order -----

  /** The sort's comparison: heavier first, then by path. */
  predicate Before(durations: Durations, a: File, b: File) {
    Weight(durations, a) > Weight(durations, b)
    || (Weight(durations, a) == Weight(durations, b) && TextOrder.Less(a.path, b.path))
  }

  lemma BeforeTrans(durations: Durations, a: File, b: File, c: File)
    requires Before(durations, a, b) && Before(durations, b, c)
    ensures Before(durations, a, c)
  {
    if TextOrder.Less(a.path, b.path) && TextOrder.Less(b.path, c.path) { TextOrder.LessTrans(a.path, b.path, c.path); }
  }

  /** Nothing later in the list should have come earlier. */
  ghost predicate InOrder(durations: Durations, files: seq<File>) {
    forall i, j :: 0 <= i < j < |files| ==> !Before(durations, files[j], files[i])
  }

  lemma InOrderFirst(durations: Durations, xs: seq<File>, y: File)
    requires InOrder(durations, xs) && y in xs
    ensures !Before(durations, y, xs[0])
  {
    var j :| 0 <= j < |xs| && xs[j] == y;
    TextOrder.LessIrreflexive(y.path);
  }

  lemma BeforeTotal(durations: Durations, a: File, b: File)
    requires !Before(durations, a, b) && !Before(durations, b, a)
    ensures a == b
  {
    TextOrder.LessTotal(a.path, b.path);
  }

  lemma InOrderTail(durations: Durations, xs: seq<File>)
    requires InOrder(durations, xs) && xs != []
    ensures InOrder(durations, xs[1..])
  {
    hide Before;
  }

  lemma MultisetTail<T>(xs: seq<T>)
    requires xs != []
    ensures xs == [xs[0]] + xs[1..] && multiset(xs[1..]) == multiset(xs) - multiset{xs[0]}
  {
    assert xs == [xs[0]] + xs[1..];
  }

  /** A sorted list is determined by its contents: the plan depends only on the file set. */
  lemma {:induction false} OrderUnique(durations: Durations, xs: seq<File>, ys: seq<File>)
    requires InOrder(durations, xs) && InOrder(durations, ys) && multiset(xs) == multiset(ys)
    ensures xs == ys
  {
    hide Before, InOrder;
    assert |xs| == |multiset(xs)| == |multiset(ys)| == |ys|;
    if xs != [] {
      assert xs[0] in multiset(ys) && ys[0] in multiset(xs);
      InOrderFirst(durations, xs, ys[0]);
      InOrderFirst(durations, ys, xs[0]);
      BeforeTotal(durations, xs[0], ys[0]);
      MultisetTail(xs);
      MultisetTail(ys);
      InOrderTail(durations, xs);
      InOrderTail(durations, ys);
      OrderUnique(durations, xs[1..], ys[1..]);
    }
  }

  /** The suite without the files the regtest job runs. */
  function Sharded(files: seq<File>, regtest: seq<File>): (r: seq<File>)
    ensures forall f :: multiset(r)[f] == if f in regtest then 0 else multiset(files)[f]
  {
    if files == [] then [] else
      assert files == [files[0]] + files[1..];
      if files[0] in regtest then Sharded(files[1..], regtest) else [files[0]] + Sharded(files[1..], regtest)
  }

  function InsertFile(durations: Durations, f: File, files: seq<File>): (r: seq<File>)
    ensures multiset(r) == multiset(files) + multiset{f}
  {
    if files == [] || Before(durations, f, files[0]) then [f] + files
    else
      assert files == [files[0]] + files[1..];
      [files[0]] + InsertFile(durations, f, files[1..])
  }

  lemma ConsInOrder(durations: Durations, x: File, xs: seq<File>)
    requires InOrder(durations, xs) && forall y :: y in xs ==> !Before(durations, y, x)
    ensures InOrder(durations, [x] + xs)
  {
    hide Before;
  }

  lemma {:induction false} InsertKeepsOrder(durations: Durations, f: File, files: seq<File>)
    requires InOrder(durations, files)
    ensures InOrder(durations, InsertFile(durations, f, files))
  {
    hide Before, InOrder;
    if files == [] {
      assert [f] + files == [f];
      OneInOrder(durations, f);
    } else if Before(durations, f, files[0]) {
      forall y | y in files ensures !Before(durations, y, f) {
        InOrderFirst(durations, files, y);
        if Before(durations, y, f) { BeforeTrans(durations, y, f, files[0]); }
      }
      ConsInOrder(durations, f, files);
    } else {
      var rest := InsertFile(durations, f, files[1..]);
      InOrderTail(durations, files);
      InsertKeepsOrder(durations, f, files[1..]);
      forall y | y in rest ensures !Before(durations, y, files[0]) {
        assert y in multiset(rest);
        if y != f {
          assert y in multiset(files[1..]);
          InOrderFirst(durations, files, y);
        }
      }
      ConsInOrder(durations, files[0], rest);
    }
  }

  lemma OneInOrder(durations: Durations, f: File)
    ensures InOrder(durations, [f])
  {
    hide Before;
  }

  /** The sort: same files, heaviest first, ties by path. */
  function Sorted(durations: Durations, files: seq<File>): (r: seq<File>)
    ensures multiset(r) == multiset(files) && InOrder(durations, r)
  {
    if files == [] then [] else
      assert files == [files[0]] + files[1..];
      InsertKeepsOrder(durations, files[0], Sorted(durations, files[1..]));
      InsertFile(durations, files[0], Sorted(durations, files[1..]))
  }

  function Weights(durations: Durations, files: seq<File>): (w: seq<nat>) {
    seq(|files|, i requires 0 <= i < |files| => Weight(durations, files[i]))
  }

  lemma InOrderIsHeaviestFirst(durations: Durations, files: seq<File>)
    requires InOrder(durations, files)
    ensures HeaviestFirst(Weights(durations, files))
  {
    hide TextOrder.Less;
  }

  // ----- the plan -----

  datatype Shard = Shard(files: seq<File>, seconds: nat)

  ghost function FilesOf(files: seq<File>, p: seq<nat>, k: nat, s: nat): seq<File>
    requires k <= |files| && k <= |p|
  {
    if k == 0 then [] else FilesOf(files, p, k - 1, s) + (if p[k - 1] == s then [files[k - 1]] else [])
  }

  /** How often `f` occurs in a list. */
  ghost function Count(files: seq<File>, f: File): nat {
    if files == [] then 0
    else Count(files[..|files| - 1], f) + (if files[|files| - 1] == f then 1 else 0)
  }

  lemma CountAppend(files: seq<File>, x: File, f: File)
    ensures Count(files + [x], f) == Count(files, f) + (if x == f then 1 else 0)
  {
    assert (files + [x])[..|files|] == files;
  }

  lemma {:induction false} CountIsMultiset(files: seq<File>, f: File)
    ensures Count(files, f) == multiset(files)[f]
  {
    if files != [] {
      var front := files[..|files| - 1];
      assert files == front + [files[|files| - 1]];
      CountIsMultiset(front, f);
    }
  }

  /** How often `f` was placed in the first `i` shards. */
  ghost function Placed(out: seq<Shard>, i: nat, f: File): nat
    requires i <= |out|
  {
    if i == 0 then 0 else Placed(out, i - 1, f) + Count(out[i - 1].files, f)
  }

  lemma {:induction false} PlacedUpdate(out: seq<Shard>, i: nat, at: nat, x: File, seconds: nat, f: File)
    requires i <= |out| && at < |out|
    ensures var out' := out[at := Shard(out[at].files + [x], seconds)];
            Placed(out', i, f) == Placed(out, i, f) + (if at < i && x == f then 1 else 0)
  {
    if i > 0 {
      PlacedUpdate(out, i - 1, at, x, seconds, f);
      CountAppend(out[at].files, x, f);
    }
  }

  /** The shards hold what assignment `p` gives them of the first `k` files. */
  ghost predicate Follows(out: seq<Shard>, files: seq<File>, w: seq<nat>, p: seq<nat>, k: nat) {
    && k <= |files| == |w| && |p| == k
    && forall s: nat :: s < |out| ==> out[s].files == FilesOf(files, p, k, s) && out[s].seconds == Load(p, w, k, s)
  }

  lemma {:induction false} LoadPrefix(p: seq<nat>, q: seq<nat>, v: seq<nat>, k: nat, s: nat)
    requires k <= |p| && p <= q && k <= |v|
    ensures Load(p, v, k, s) == Load(q, v, k, s)
  {
    if k > 0 { LoadPrefix(p, q, v, k - 1, s); }
  }

  lemma {:induction false} FilesOfPrefix(files: seq<File>, p: seq<nat>, q: seq<nat>, k: nat, s: nat)
    requires k <= |files| && k <= |p| && p <= q
    ensures FilesOf(files, p, k, s) == FilesOf(files, q, k, s)
  {
    if k > 0 { FilesOfPrefix(files, p, q, k - 1, s); }
  }

  /** Greedy so far: each of the first `k` choices was a least-loaded shard. */
  ghost predicate GreedySoFar(p: seq<nat>, w: seq<nat>, m: nat) {
    && |p| <= |w|
    && (forall i :: 0 <= i < |p| ==> p[i] < m)
    && (forall i: nat, s: nat {:trigger Load(p, w, i, s)} ::
          i < |p| && s < m ==> Load(p, w, i, p[i]) <= Load(p, w, i, s))
    && (forall i: nat, s: nat {:trigger Load(p, w, i, s)} ::
          i < |p| && s < p[i] ==> Load(p, w, i, p[i]) < Load(p, w, i, s))
  }

  /** Two runs over the same weights make the same choices. */
  lemma {:induction false} ChoicesUnique(p: seq<nat>, q: seq<nat>, w: seq<nat>, m: nat, k: nat)
    requires GreedySoFar(p, w, m) && GreedySoFar(q, w, m) && k <= |p| && k <= |q|
    ensures p[..k] == q[..k]
  {
    if k > 0 {
      var i := k - 1;
      ChoicesUnique(p, q, w, m, i);
      forall s: nat ensures Load(p, w, i, s) == Load(q, w, i, s) {
        LoadPrefix(p[..i], p, w, i, s);
        LoadPrefix(q[..i], q, w, i, s);
      }
      assert Load(p, w, i, p[i]) <= Load(p, w, i, q[i]) && Load(q, w, i, q[i]) <= Load(q, w, i, p[i]);
      assert p[..k] == p[..i] + [p[i]] && q[..k] == q[..i] + [q[i]];
    }
  }

  /**
   * The plan depends only on which files there are and on the duration map,
   * not on the order the files were collected in.
   */
  lemma PlanDeterministic(
      all: seq<File>, all': seq<File>, regtest: seq<File>, durations: Durations,
      out: seq<Shard>, out': seq<Shard>, p: seq<nat>, p': seq<nat>)
    requires multiset(all) == multiset(all') && |out| == |out'|
    requires var files := Sorted(durations, Sharded(all, regtest));
             var w := Weights(durations, files);
             Follows(out, files, w, p, |files|) && GreedySoFar(p, w, |out|)
    requires var files := Sorted(durations, Sharded(all', regtest));
             var w := Weights(durations, files);
             Follows(out', files, w, p', |files|) && GreedySoFar(p', w, |out'|)
    ensures out == out'
  {
    hide Weights, GreedySoFar, Sorted, Sharded, Load, FilesOf;
    var files, files' := Sorted(durations, Sharded(all, regtest)), Sorted(durations, Sharded(all', regtest));
    assert multiset(Sharded(all, regtest)) == multiset(Sharded(all', regtest));
    OrderUnique(durations, files, files');
    ChoicesUnique(p, p', Weights(durations, files), |out|, |files|);
    assert p == p[..|files|] && p' == p'[..|files|];
    forall s: nat | s < |out| ensures out[s] == out'[s] {
    }
  }

  lemma PlaceOne(out: seq<Shard>, files: seq<File>, w: seq<nat>, p: seq<nat>, best: nat)
    requires Follows(out, files, w, p, |p|) && |p| < |files| && GreedySoFar(p, w, |out|) && best < |out|
    requires forall i: nat :: i < |out| ==> out[best].seconds <= out[i].seconds
    requires forall i: nat :: i < best ==> out[best].seconds < out[i].seconds
    ensures var k := |p|;
            var out' := out[best := Shard(out[best].files + [files[k]], out[best].seconds + w[k])];
            Follows(out', files, w, p + [best], k + 1) && GreedySoFar(p + [best], w, |out|)
  {
    var k, q := |p|, p + [best];
    forall i: nat, s: nat | i <= k && s < |out| ensures Load(q, w, i, s) == Load(p, w, i, s) {
      LoadPrefix(p, q, w, i, s);
    }
    forall s: nat | s < |out| ensures FilesOf(files, q, k, s) == FilesOf(files, p, k, s) {
      FilesOfPrefix(files, p, q, k, s);
    }
    forall i: nat, s: nat {:trigger Load(q, w, i, s)} | i < |q| && s < |out|
      ensures Load(q, w, i, q[i]) <= Load(q, w, i, s)
    {
      assert i < k ==> Load(p, w, i, p[i]) <= Load(p, w, i, s);
    }
    forall i: nat, s: nat {:trigger Load(q, w, i, s)} | i < |q| && s < q[i]
      ensures Load(q, w, i, q[i]) < Load(q, w, i, s)
    {
      assert i < k ==> Load(p, w, i, p[i]) < Load(p, w, i, s);
    }
  }

  method LeastLoaded(out: seq<Shard>) returns (best: nat)
    requires out != []
    ensures best < |out| && forall i: nat :: i < |out| ==> out[best].seconds <= out[i].seconds
    ensures forall i: nat :: i < best ==> out[best].seconds < out[i].seconds
  {
    best := 0;
    for i := 1 to |out|
      invariant best < i
      invariant forall j: nat :: j < i ==> out[best].seconds <= out[j].seconds
      invariant forall j: nat :: j < best ==> out[best].seconds < out[j].seconds
    {
      if out[i].seconds < out[best].seconds { best := i; }
    }
  }

  /**
   * No other way to split these files over these shards has a fullest shard
   * below 3m/(4m-1) of this plan's.
   */
  ghost predicate NearOptimal(out: seq<Shard>, w: seq<nat>) {
    forall a, cap: nat, s: nat :: Assigns(a, |w|, |out|) && FitsWithin(a, w, |out|, cap) && s < |out| ==>
      3 * |out| * out[s].seconds <= (4 * |out| - 1) * cap
  }

  ghost predicate SpreadWithin(out: seq<Shard>, top: nat) {
    forall s, t :: 0 <= s < |out| && 0 <= t < |out| ==> out[s].seconds <= out[t].seconds + top
  }

  ghost predicate PlacesPrefix(out: seq<Shard>, files: seq<File>, k: nat)
    requires k <= |files|
  {
    forall f :: Placed(out, |out|, f) == Count(files[..k], f)
  }

  lemma PlacesNext(out: seq<Shard>, files: seq<File>, k: nat, best: nat, seconds: nat)
    requires k < |files| && best < |out| && PlacesPrefix(out, files, k)
    ensures PlacesPrefix(out[best := Shard(out[best].files + [files[k]], seconds)], files, k + 1)
  {
    hide Placed, Count;
    var out' := out[best := Shard(out[best].files + [files[k]], seconds)];
    forall f ensures Placed(out', |out'|, f) == Count(files[..k + 1], f) {
      PlacedUpdate(out, |out|, best, files[k], seconds, f);
      CountAppend(files[..k], files[k], f);
      assert files[..k + 1] == files[..k] + [files[k]];
    }
  }

  /** What a shard's files take: the seconds on file for each, or ten, and two more to load it. */
  function Cost(durations: Durations, files: seq<File>): nat {
    if files == [] then 0
    else
      var last := files[|files| - 1];
      Cost(durations, files[..|files| - 1]) + (if last in durations then durations[last] + 2 else 12)
  }

  ghost predicate Costed(out: seq<Shard>, durations: Durations) {
    forall s :: 0 <= s < |out| ==> out[s].seconds == Cost(durations, out[s].files)
  }

  lemma CostAppend(durations: Durations, files: seq<File>, f: File)
    ensures Cost(durations, files + [f]) == Cost(durations, files) + Weight(durations, f)
  {
    assert (files + [f])[..|files|] == files;
  }

  /** The placement loop, over files already in order. */
  method Fill(shards: nat, files: seq<File>, durations: Durations) returns (out: seq<Shard>, ghost p: seq<nat>)
    requires shards >= 1
    ensures |out| == shards
    ensures PlacesPrefix(out, files, |files|)
    ensures Follows(out, files, Weights(durations, files), p, |files|)
    ensures GreedySoFar(p, Weights(durations, files), shards)
    ensures Costed(out, durations)
  {
    hide Weights, GreedySoFar, Follows, PlacesPrefix, Cost;
    ghost var w := Weights(durations, files);
    out, p := seq(shards, i => Shard([], 0)), [];
    PlanStart(out, durations, files);
    for k := 0 to |files|
      invariant |out| == shards && |p| == k && Follows(out, files, w, p, k) && GreedySoFar(p, w, shards)
      invariant PlacesPrefix(out, files, k) && Costed(out, durations)
    {
      var best := LeastLoaded(out);
      CostAppend(durations, out[best].files, files[k]);
      WeightsAt(durations, files, k);
      PlaceOne(out, files, w, p, best);
      PlacesNext(out, files, k, best, out[best].seconds + w[k]);
      out := out[best := Shard(out[best].files + [files[k]], out[best].seconds + Weight(durations, files[k]))];
      p := p + [best];
    }
  }

  method Plan(shards: nat, all: seq<File>, regtest: seq<File>, durations: Durations) returns (out: seq<Shard>, ghost p: seq<nat>)
    requires shards >= 1
    ensures |out| == shards
    ensures forall f :: Placed(out, shards, f) == if f in regtest then 0 else multiset(all)[f]
    ensures Costed(out, durations)
    ensures var files := Sorted(durations, Sharded(all, regtest));
            var w := Weights(durations, files);
            && Follows(out, files, w, p, |files|)
            && GreedySoFar(p, w, shards)
            && NearOptimal(out, w)
            && SpreadWithin(out, if w == [] then 0 else w[0])
  {
    hide Weights, GreedySoFar, Follows;
    var files := Sorted(durations, Sharded(all, regtest));
    out, p := Fill(shards, files, durations);
    assert files[..|files|] == files;
    forall f ensures Placed(out, shards, f) == if f in regtest then 0 else multiset(all)[f] {
      CountIsMultiset(files, f);
    }
    PlanIsNearOptimal(out, durations, files, p);
  }

  lemma WeightsAt(durations: Durations, files: seq<File>, k: nat)
    requires k < |files|
    ensures |Weights(durations, files)| == |files| && Weights(durations, files)[k] == Weight(durations, files[k])
  {
  }

  lemma PlanStart(out: seq<Shard>, durations: Durations, files: seq<File>)
    requires forall s :: 0 <= s < |out| ==> out[s] == Shard([], 0)
    ensures Follows(out, files, Weights(durations, files), [], 0)
    ensures GreedySoFar([], Weights(durations, files), |out|)
    ensures PlacesPrefix(out, files, 0) && Costed(out, durations)
  {
    forall f ensures Placed(out, |out|, f) == 0 { NothingPlaced(out, |out|, f); }
  }

  lemma {:induction false} NothingPlaced(out: seq<Shard>, i: nat, f: File)
    requires i <= |out| && forall s :: 0 <= s < |out| ==> out[s].files == []
    ensures Placed(out, i, f) == 0
  {
    if i > 0 { NothingPlaced(out, i - 1, f); }
  }

  lemma PlanIsNearOptimal(out: seq<Shard>, durations: Durations, files: seq<File>, p: seq<nat>)
    requires InOrder(durations, files) && Follows(out, files, Weights(durations, files), p, |files|)
    requires GreedySoFar(p, Weights(durations, files), |out|)
    ensures NearOptimal(out, Weights(durations, files))
    ensures var w := Weights(durations, files); SpreadWithin(out, if w == [] then 0 else w[0])
  {
    var w := Weights(durations, files);
    InOrderIsHeaviestFirst(durations, files);
    forall a, cap: nat, s: nat | Assigns(a, |w|, |out|) && FitsWithin(a, w, |out|, cap) && s < |out|
      ensures 3 * |out| * out[s].seconds <= (4 * |out| - 1) * cap
    {
      GreedyWithinFourThirds(p, a, w, |out|, cap, s);
    }
    var top := if w == [] then 0 else w[0];
    forall s, t | 0 <= s < |out| && 0 <= t < |out| ensures out[s].seconds <= out[t].seconds + top {
      SpreadWithinHeaviest(p, w, |out|, |w|, top, s, t);
    }
  }

  // ----- the --verify check -----

  datatype Problem = NotInSuite(file: File) | PlacedTimes(file: File, times: nat)

  /** Every sharded file is listed once, and every regtest file is in the suite, listed once. */
  ghost predicate SuiteSound(all: seq<File>, regtest: seq<File>) {
    && (forall f :: f in all && f !in regtest ==> multiset(all)[f] == 1)
    && (forall f :: f in regtest ==> f in all && multiset(regtest)[f] == 1)
  }

  /** Adds one placement of `f`, or reports it as no file of the suite. */
  method Place(placed: map<File, nat>, problems: seq<Problem>, f: File)
    returns (placed': map<File, nat>, problems': seq<Problem>)
    ensures f in placed ==> placed' == placed[f := placed[f] + 1] && problems' == problems
    ensures f !in placed ==> placed' == placed && problems' == problems + [NotInSuite(f)]
  {
    placed', problems' := placed, problems;
    if f in placed { placed' := placed[f := placed[f] + 1]; } else { problems' := problems + [NotInSuite(f)]; }
  }

  method CountFiles(files: seq<File>, placed: map<File, nat>, problems: seq<Problem>)
    returns (placed': map<File, nat>, problems': seq<Problem>)
    ensures placed'.Keys == placed.Keys
    ensures forall f :: f in placed ==> placed'[f] == placed[f] + Count(files, f)
    ensures problems' == [] <==> problems == [] && forall f :: f in files ==> f in placed
  {
    placed', problems' := placed, problems;
    for j := 0 to |files|
      invariant placed'.Keys == placed.Keys
      invariant forall f :: f in placed ==> placed'[f] == placed[f] + Count(files[..j], f)
      invariant problems' == [] <==> problems == [] && forall k :: 0 <= k < j ==> files[k] in placed
    {
      assert files[..j + 1] == files[..j] + [files[j]];
      forall f ensures Count(files[..j + 1], f) == Count(files[..j], f) + if files[j] == f then 1 else 0 {
        CountAppend(files[..j], files[j], f);
      }
      placed', problems' := Place(placed', problems', files[j]);
    }
    assert files[..|files|] == files;
  }

  method CountPlacements(out: seq<Shard>, all: seq<File>)
    returns (placed: map<File, nat>, problems: seq<Problem>)
    ensures placed.Keys == set f | f in all
    ensures forall f :: f in placed ==> placed[f] == Placed(out, |out|, f)
    ensures problems == [] <==> forall f :: f !in all ==> Placed(out, |out|, f) == 0
  {
    placed, problems := map f | f in all :: 0, [];
    for i := 0 to |out|
      invariant placed.Keys == set f | f in all
      invariant forall f :: f in placed ==> placed[f] == Placed(out, i, f)
      invariant problems == [] <==> forall f :: f !in all ==> Placed(out, i, f) == 0
    {
      placed, problems := CountFiles(out[i].files, placed, problems);
      assert forall f :: Placed(out, i + 1, f) == Placed(out, i, f) + Count(out[i].files, f);
      forall f ensures f in out[i].files <==> Count(out[i].files, f) > 0 {
        CountIsMultiset(out[i].files, f);
      }
    }
  }

  /** The regtest job counts as one more place for each of its files. */
  method CountRegtest(placed: map<File, nat>, regtest: seq<File>)
    returns (placed': map<File, nat>, problems: seq<Problem>)
    ensures placed'.Keys == placed.Keys
    ensures forall f :: f in placed ==> placed'[f] == placed[f] + multiset(regtest)[f]
    ensures problems == [] <==> forall f :: f in regtest ==> f in placed
  {
    placed', problems := CountFiles(regtest, placed, []);
    forall f | f in placed ensures placed'[f] == placed[f] + multiset(regtest)[f] {
      CountIsMultiset(regtest, f);
    }
  }

  method NotOnce(placed: map<File, nat>) returns (problems: seq<Problem>)
    ensures problems == [] <==> forall f :: f in placed ==> placed[f] == 1
  {
    problems := [];
    var rest := placed.Keys;
    while rest != {}
      invariant rest <= placed.Keys
      invariant problems == [] <==> forall f :: f in placed && f !in rest ==> placed[f] == 1
    {
      var f :| f in rest;
      rest := rest - {f};
      if placed[f] != 1 { problems := problems + [PlacedTimes(f, placed[f])]; }
    }
  }

  lemma OnceEverywhere(all: seq<File>, regtest: seq<File>, tally: map<File, nat>)
    requires tally.Keys == set f | f in all
    requires forall f :: f in tally ==>
      tally[f] == (if f in regtest then 0 else multiset(all)[f]) + multiset(regtest)[f]
    ensures SuiteSound(all, regtest) <==>
      (forall f :: f in tally ==> tally[f] == 1) && (forall f :: f in regtest ==> f in tally)
  {
    forall f | f in all
      ensures f in tally && tally[f] == if f in regtest then multiset(regtest)[f] else multiset(all)[f]
    {
    }
  }

  /** `--verify` reports nothing exactly when each suite file lands in one place. */
  method Verify(shards: nat, all: seq<File>, regtest: seq<File>, durations: Durations)
    returns (problems: seq<Problem>)
    requires shards >= 1
    ensures problems == [] <==> SuiteSound(all, regtest)
  {
    hide Placed, Follows, GreedySoFar, NearOptimal, SpreadWithin, Sorted, Sharded, Weights, SuiteSound;
    var out, p := Plan(shards, all, regtest, durations);
    var placed, strangers := CountPlacements(out, all);
    var tally, absent := CountRegtest(placed, regtest);
    var wrong := NotOnce(tally);
    problems := strangers + absent + wrong;
    assert strangers == [];
    OnceEverywhere(all, regtest, tally);
  }
}
