/**
 * The queue's finished entries, a page at a time (src/cli/payment-queue.ts):
 * the newest-first order, the page after an id, and the walk prune() makes
 * over a storage that may not keep its contract.
 */
module QueueHistory {
  import TextOrder

  const MAX_HISTORY_PAGE: nat := 1000

  datatype Option<T> = None | Some(value: T)

  datatype Id = Id(text: string)

  datatype Row = Row(id: Id, createdAt: nat, completedAt: Option<nat>)

  function FinishedAt(r: Row): (t: nat) {
    if r.completedAt.Some? then r.completedAt.value else r.createdAt
  }

  /** newestFinishedFirst is negative: `a` is listed before `b`. */
  predicate Newer(a: Row, b: Row) {
    FinishedAt(b) < FinishedAt(a) || (FinishedAt(a) == FinishedAt(b) && TextOrder.Less(b.id.text, a.id.text))
  }

  ghost predicate Listed(rows: seq<Row>) {
    forall i, j :: 0 <= i < j < |rows| ==> Newer(rows[i], rows[j])
  }

  /** The order is strict and total on rows with distinct ids: a store has one listing. */
  lemma NewerTotal(a: Row, b: Row)
    requires a.id != b.id
    ensures Newer(a, b) != Newer(b, a)
  {
    TextOrder.LessTotal(a.id.text, b.id.text);
  }

  lemma NewerTrans(a: Row, b: Row, c: Row)
    requires Newer(a, b) && Newer(b, c)
    ensures Newer(a, c)
  {
    if TextOrder.Less(b.id.text, a.id.text) && TextOrder.Less(c.id.text, b.id.text) {
      TextOrder.LessTrans(c.id.text, b.id.text, a.id.text);
    }
  }

  // ----- the listing -----

  function Insert(r: Row, rows: seq<Row>): (s: seq<Row>)
    ensures multiset(s) == multiset(rows) + multiset{r}
  {
    if rows == [] || Newer(r, rows[0]) then [r] + rows
    else
      assert rows == [rows[0]] + rows[1..];
      [rows[0]] + Insert(r, rows[1..])
  }

  /** The sort by newestFinishedFirst. */
  function NewestFirst(rows: seq<Row>): (s: seq<Row>)
    ensures multiset(s) == multiset(rows)
  {
    if rows == [] then []
    else
      assert rows == [rows[0]] + rows[1..];
      Insert(rows[0], NewestFirst(rows[1..]))
  }

  ghost predicate NewId(r: Row, rows: seq<Row>) {
    forall x :: x in rows ==> x.id != r.id
  }

  lemma InsertMembers(r: Row, rows: seq<Row>, x: Row)
    ensures x in Insert(r, rows) <==> x == r || x in rows
  {
    assert x in Insert(r, rows) <==> x in multiset(Insert(r, rows));
  }

  lemma {:induction false} InsertListed(r: Row, rows: seq<Row>)
    requires Listed(rows) && DistinctIds(rows) && NewId(r, rows)
    ensures Listed(Insert(r, rows)) && DistinctIds(Insert(r, rows))
  {
    if rows == [] || Newer(r, rows[0]) {
      forall j | 0 <= j < |rows| ensures Newer(r, rows[j]) && r.id != rows[j].id {
        assert rows[j] in rows;
        if j > 0 {
          NewerTrans(r, rows[0], rows[j]);
        }
      }
    } else {
      InsertListed(r, rows[1..]);
      var rest := Insert(r, rows[1..]);
      assert rows[0] in rows;
      NewerTotal(r, rows[0]);
      forall j | 0 <= j < |rest| ensures Newer(rows[0], rest[j]) && rows[0].id != rest[j].id {
        InsertMembers(r, rows[1..], rest[j]);
        assert rest[j] in rest;
      }
    }
  }

  lemma SortMembers(rows: seq<Row>, x: Row)
    ensures x in NewestFirst(rows) <==> x in rows
  {
    assert x in NewestFirst(rows) <==> x in multiset(NewestFirst(rows));
  }

  /** The listing is newest first, and lists each row once. */
  lemma {:induction false} SortListed(rows: seq<Row>)
    requires DistinctIds(rows)
    ensures Listed(NewestFirst(rows)) && DistinctIds(NewestFirst(rows))
  {
    if rows != [] {
      SortListed(rows[1..]);
      forall x | x in NewestFirst(rows[1..]) ensures x.id != rows[0].id {
        SortMembers(rows[1..], x);
      }
      InsertListed(rows[0], NewestFirst(rows[1..]));
    }
  }

  // ----- pages -----

  /** The index of the row with this id, or the length. */
  function Find(rows: seq<Row>, id: Id): (i: nat)
    ensures i <= |rows|
    ensures i < |rows| ==> rows[i].id == id
    ensures forall j :: 0 <= j < i ==> rows[j].id != id
  {
    if rows == [] || rows[0].id == id then 0 else 1 + Find(rows[1..], id)
  }

  function Upto(rows: seq<Row>, from: nat, limit: nat): (page: seq<Row>)
    requires from <= |rows|
  {
    if from + limit < |rows| then rows[from..from + limit] else rows[from..]
  }

  /** historyPage over rows already sorted. */
  function HistoryPage(rows: seq<Row>, limit: nat, before: Option<Id>): (page: seq<Row>) {
    if before.None? then Upto(rows, 0, limit)
    else
      var at := Find(rows, before.value);
      if at == |rows| then [] else Upto(rows, at + 1, limit)
  }

  ghost predicate DistinctIds(rows: seq<Row>) {
    forall i, j :: 0 <= i < j < |rows| ==> rows[i].id != rows[j].id
  }

  function PageSize(limit: nat): (size: nat) {
    if limit < MAX_HISTORY_PAGE then limit else MAX_HISTORY_PAGE
  }

  /** Asking for each next page with the last id of the one before. */
  method ReadPages(rows: seq<Row>, limit: nat) returns (all: seq<Row>)
    requires limit >= 1 && DistinctIds(rows)
    ensures all == rows
  {
    all := [];
    var page := HistoryPage(rows, PageSize(limit), None);
    while page != []
      invariant |all| <= |rows| && all == rows[..|all|]
      invariant page == Upto(rows, |all|, PageSize(limit))
      decreases |rows| - |all|
    {
      assert rows[..|all|] + page == rows[..|all| + |page|];
      all := all + page;
      assert Find(rows, all[|all| - 1].id) == |all| - 1;
      page := HistoryPage(rows, PageSize(limit), Some(all[|all| - 1].id));
    }
  }

  /** history() over a fixed store, page by page: every finished entry once, newest first. */
  method ReadAll(held: seq<Row>, limit: nat) returns (all: seq<Row>)
    requires limit >= 1 && DistinctIds(held)
    ensures multiset(all) == multiset(held) && Listed(all)
    ensures forall i, j :: 0 <= i < j < |all| ==> FinishedAt(all[i]) >= FinishedAt(all[j])
  {
    SortListed(held);
    all := ReadPages(NewestFirst(held), limit);
  }

  // ----- the walk over storage -----

  function Ids(rows: seq<Row>): (s: set<Id>) {
    set r | r in rows :: r.id
  }

  /** Storage that answers as loadQueueHistory is documented to. */
  ghost predicate Obeys(load: (nat, Option<Id>) -> seq<Row>, rows: seq<Row>) {
    forall n, before :: load(n, before) == HistoryPage(rows, MAX_HISTORY_PAGE, before)
  }

  ghost predicate AnswersWithin(load: (nat, Option<Id>) -> seq<Row>, held: set<Id>) {
    forall n, before :: Ids(load(n, before)) <= held
  }

  /**
   * storedHistoryIds: `load(n, before)` is storage's n-th answer. It ends even
   * when storage ignores `before`, and against storage that obeys its contract
   * it finds every finished row.
   */
  method StoredHistoryIds(load: (nat, Option<Id>) -> seq<Row>, ghost held: set<Id>, ghost rows: seq<Row>)
    returns (ids: set<Id>)
    requires AnswersWithin(load, held) && DistinctIds(rows)
    ensures ids <= held
    ensures Obeys(load, rows) ==> ids == Ids(rows)
  {
    ids := {};
    var n := 0;
    var page := load(0, None);
    ghost var read: nat := 0;
    while true
      invariant ids <= held && Ids(page) <= held
      invariant Obeys(load, rows) ==>
        read <= |rows| && ids == Ids(rows[..read]) && page == Upto(rows, read, MAX_HISTORY_PAGE)
      decreases held - ids
    {
      var known := ids;
      ids := ids + Ids(page);
      if Obeys(load, rows) { PageAdds(rows, read); }
      if |page| < MAX_HISTORY_PAGE || ids == known { return; }
      var last := page[|page| - 1].id;
      if Obeys(load, rows) {
        read := read + |page|;
        assert Find(rows, last) == read - 1;
      }
      n := n + 1;
      page := load(n, Some(last));
      assert Ids(load(n, Some(last))) <= held;
    }
  }

  /** A page of fresh rows: it adds ids unless the listing is exhausted. */
  lemma PageAdds(rows: seq<Row>, read: nat)
    requires DistinctIds(rows) && read <= |rows|
    ensures var page := Upto(rows, read, MAX_HISTORY_PAGE);
            && Ids(rows[..read]) + Ids(page) == Ids(rows[..read + |page|])
            && (|page| < MAX_HISTORY_PAGE ==> read + |page| == |rows|)
            && (page != [] ==> Ids(rows[..read]) + Ids(page) != Ids(rows[..read]))
  {
    var page := Upto(rows, read, MAX_HISTORY_PAGE);
    assert rows[..read + |page|] == rows[..read] + page;
    assert forall r :: r in rows[..read + |page|] <==> r in rows[..read] || r in page;
    assert rows[..|rows|] == rows;
    if page != [] {
      assert page[0] == rows[read] && page[0].id in Ids(page);
      assert page[0].id !in Ids(rows[..read]);
    }
  }
}
