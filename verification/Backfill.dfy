/** The migration that fills the cached reliability flag, one page of rows at a time. */
module Backfill {
  // A row of the table; the flag is the cached verdict on the result.
  datatype Row = Row(id: int, result: string, flag: bool)

  predicate Ordered(rows: seq<Row>)
  {
    forall i, j :: 0 <= i < j < |rows| ==> rows[i].id < rows[j].id
  }

  // Where the rows behind `last` begin.
  function Behind(rows: seq<Row>, last: int): (n: nat)
    ensures n <= |rows|
    ensures forall i :: 0 <= i < n ==> rows[i].id <= last
    ensures n < |rows| ==> rows[n].id > last
  {
    if rows == [] || rows[0].id > last then 0 else 1 + Behind(rows[1..], last)
  }

  // The rows from a to b carry their own verdict, the others are left alone.
  function JudgedRange(rows: seq<Row>, judge: string -> bool, a: int, b: int): (r: seq<Row>)
    ensures |r| == |rows|
  {
    seq(|rows|, i requires 0 <= i < |rows| => if a <= i < b then rows[i].(flag := judge(rows[i].result)) else rows[i])
  }

  // One more update for each row from a to b.
  function HitRange(hits: seq<nat>, a: int, b: int): (r: seq<nat>)
    ensures |r| == |hits|
  {
    seq(|hits|, i requires 0 <= i < |hits| => if a <= i < b then hits[i] + 1 else hits[i])
  }

  lemma RangesJoin(rows: seq<Row>, judge: string -> bool, hits: seq<nat>, a: int, b: int, c: int)
    requires a <= b <= c
    ensures JudgedRange(JudgedRange(rows, judge, a, b), judge, b, c) == JudgedRange(rows, judge, a, c)
    ensures HitRange(HitRange(hits, a, b), b, c) == HitRange(hits, a, c)
  {
  }

  lemma {:induction false} BehindIs(rows: seq<Row>, last: int, n: nat)
    requires n <= |rows| && (n < |rows| ==> rows[n].id > last)
    requires forall i :: 0 <= i < n ==> rows[i].id <= last
    ensures Behind(rows, last) == n
  {
    if n > 0 { BehindIs(rows[1..], last, n - 1); }
  }

  lemma BehindRow(rows: seq<Row>, n: nat)
    requires Ordered(rows) && n < |rows|
    ensures Behind(rows, rows[n].id) == n + 1
  {
    BehindIs(rows, rows[n].id, n + 1);
  }

  lemma SameBehind(rows: seq<Row>, judge: string -> bool, a: int, b: int, last: int)
    ensures Behind(JudgedRange(rows, judge, a, b), last) == Behind(rows, last)
  {
    BehindIs(JudgedRange(rows, judge, a, b), last, Behind(rows, last));
  }

  class Table {
    var rows: seq<Row>
    ghost var hits: seq<nat>   // how often each row was updated

    // The rows in the order of the primary key, no id twice.
    constructor (rows: seq<Row>)
      requires Ordered(rows)
      ensures this.rows == rows && Valid()
      ensures forall i :: 0 <= i < |hits| ==> hits[i] == 0
    {
      this.rows, hits := rows, seq(|rows|, i => 0);
    }

    ghost predicate Valid()
      reads this
    {
      Ordered(rows) && |hits| == |rows|
    }

    // SELECT ... WHERE id > last ORDER BY id LIMIT chunk
    function Page(last: int, chunk: nat): (page: seq<Row>)
      reads this
      ensures |page| <= chunk && Behind(rows, last) + |page| <= |rows|
      ensures page == rows[Behind(rows, last)..Behind(rows, last) + |page|]
      ensures |page| < chunk ==> Behind(rows, last) + |page| == |rows|
    {
      var n := Behind(rows, last);
      if n + chunk <= |rows| then rows[n..n + chunk] else rows[n..]
    }

    // UPDATE ... SET flag WHERE id = ...
    method Update(id: int, flag: bool)
      requires Valid()
      modifies this
      ensures Valid() && |rows| == |old(rows)|
      ensures forall i :: 0 <= i < |rows| ==>
        && rows[i] == (if old(rows)[i].id == id then old(rows)[i].(flag := flag) else old(rows)[i])
        && hits[i] == (if old(rows)[i].id == id then old(hits)[i] + 1 else old(hits)[i])
    {
      hits := seq(|hits|, i requires 0 <= i < |hits| && i < |rows| reads this =>
        if rows[i].id == id then hits[i] + 1 else hits[i]);
      rows := seq(|rows|, i requires 0 <= i < |rows| reads this =>
        if rows[i].id == id then rows[i].(flag := flag) else rows[i]);
    }

    // One page of verdicts, the rows from `from` on.
    method UpdatePage(page: seq<Row>, judge: string -> bool, ghost from: nat)
      requires Valid() && from + |page| <= |rows| && page == rows[from..from + |page|]
      modifies this
      ensures Valid()
      ensures rows == JudgedRange(old(rows), judge, from, from + |page|)
      ensures hits == HitRange(old(hits), from, from + |page|)
    {
      for n := 0 to |page|
        invariant Valid() && rows == JudgedRange(old(rows), judge, from, from + n)
        invariant hits == HitRange(old(hits), from, from + n)
      {
        assert page[n] == old(rows)[from + n];
        Update(page[n].id, judge(page[n].result));
      }
    }

    // The page behind `last`, if there is one: how many rows it had and the id of its last row.
    method RunPage(judge: string -> bool, chunk: nat, last: int, ghost at: nat)
      returns (n: nat, next: int, ghost end: nat)
      requires Valid() && chunk >= 1 && at == Behind(rows, last)
      modifies this
      ensures Valid() && end == at + n && end <= |rows| && (n == 0 ==> end == |rows|) && Behind(rows, next) == end
      ensures rows == JudgedRange(old(rows), judge, at, end) && hits == HitRange(old(hits), at, end)
    {
      var page := Page(last, chunk);
      if page == [] {
        return 0, last, at;
      }
      BehindRow(rows, at + |page| - 1);
      SameBehind(rows, judge, at, at + |page|, page[|page| - 1].id);
      UpdatePage(page, judge, at);
      n, next, end := |page|, page[|page| - 1].id, at + |page|;
    }

    /** Whatever the page size, every row with a positive id is updated exactly once and ends with its
        own verdict; the others are not touched. */
    method Backfill(judge: string -> bool, chunk: nat) returns (updated: nat)
      requires Valid() && chunk >= 1
      modifies this
      ensures Valid() && |rows| == |old(rows)|
      ensures forall i :: 0 <= i < |rows| ==>
        && rows[i] == (if old(rows)[i].id > 0 then old(rows)[i].(flag := judge(old(rows)[i].result)) else old(rows)[i])
        && hits[i] == (if old(rows)[i].id > 0 then old(hits)[i] + 1 else old(hits)[i])
      ensures updated == |old(rows)| - Behind(old(rows), 0)
    {
      updated := 0;
      var last := 0;
      ghost var rows0, hits0, start := rows, hits, Behind(rows, 0);
      ghost var done := start;
      RangeStarts(rows0, judge, hits0, start);
      while true
        invariant Valid() && done == start + updated && done <= |rows| && Behind(rows, last) == done
        invariant Reached(rows0, hits0, rows, hits, judge, start, done)
        decreases |rows| - updated
      {
        ghost var rows1, hits1 := rows, hits;
        var n, next; ghost var end;
        n, next, end := RunPage(judge, chunk, last, done);
        ReachedNext(rows0, hits0, rows1, hits1, judge, start, done, end);
        if n == 0 {
          break;
        }
        last, updated, done := next, updated + n, end;
      }
      RangeFills(rows0, hits0, judge);
    }
  }

  predicate Reached(rows: seq<Row>, hits: seq<nat>, rows2: seq<Row>, hits2: seq<nat>, judge: string -> bool,
                    a: int, b: int)
  {
    a <= b && rows2 == JudgedRange(rows, judge, a, b) && hits2 == HitRange(hits, a, b)
  }

  lemma ReachedNext(rows: seq<Row>, hits: seq<nat>, rows2: seq<Row>, hits2: seq<nat>, judge: string -> bool,
                    a: int, b: int, c: int)
    requires Reached(rows, hits, rows2, hits2, judge, a, b) && b <= c
    ensures Reached(rows, hits, JudgedRange(rows2, judge, b, c), HitRange(hits2, b, c), judge, a, c)
  {
    RangesJoin(rows, judge, hits, a, b, c);
  }

  lemma RangeStarts(rows: seq<Row>, judge: string -> bool, hits: seq<nat>, a: int)
    ensures Reached(rows, hits, rows, hits, judge, a, a)
  {
  }

  // Every row with a positive id was updated exactly once more and carries its own verdict.
  predicate Filled(rows: seq<Row>, hits: seq<nat>, rows2: seq<Row>, hits2: seq<nat>, judge: string -> bool)
    requires |rows| == |hits|
  {
    && |rows2| == |rows| && |hits2| == |hits|
    && forall i :: 0 <= i < |rows| ==>
      && rows2[i] == (if rows[i].id > 0 then rows[i].(flag := judge(rows[i].result)) else rows[i])
      && hits2[i] == (if rows[i].id > 0 then hits[i] + 1 else hits[i])
  }

  lemma RangeFills(rows: seq<Row>, hits: seq<nat>, judge: string -> bool)
    requires Ordered(rows) && |rows| == |hits|
    ensures Filled(rows, hits, JudgedRange(rows, judge, Behind(rows, 0), |rows|),
                   HitRange(hits, Behind(rows, 0), |rows|), judge)
  {
    PositiveIds(rows);
  }

  // In key order the rows with positive ids are those behind 0.
  lemma PositiveIds(rows: seq<Row>)
    requires Ordered(rows)
    ensures forall i :: 0 <= i < |rows| ==> (rows[i].id > 0 <==> Behind(rows, 0) <= i)
  {
    var n := Behind(rows, 0);
    assert forall i :: n < i < |rows| ==> rows[n].id < rows[i].id;
  }
}
