/** Habitat's task list: each queue is cut to its newest rows, the cuts are merged, sorted and
    sliced; the answer must be a page of the whole sorted union.  Go's int is 64 bits wide. */
module Paging {
  import opened Prelude
  import opened Durations

  /** A task run.  Run ids are time-ordered UUIDs, ordered here as numbers; `matches` says whether
      the free-text search finds the row. */
  datatype Row = Row(runId: int, matches: bool)

  /** A queue's rows that pass the column filters, newest first as the query orders them;
      `answers` is false when its query fails. */
  datatype Queue = Queue(rows: seq<Row>, answers: bool)

  datatype Response = Page(items: seq<Row>, total: int, hasMore: bool) | Crash

  // ----- descending lists -----

  ghost predicate Desc(s: seq<Row>) {
    forall i, j | 0 <= i < j < |s| :: s[i].runId > s[j].runId
  }

  function Insert(x: Row, s: seq<Row>): (r: seq<Row>)
    ensures multiset(r) == multiset(s) + multiset{x}
    ensures |r| == |s| + 1
  {
    if s == [] || x.runId > s[0].runId then [x] + s
    else
      assert s == [s[0]] + s[1..];
      [s[0]] + Insert(x, s[1..])
  }

  /** The rows in descending order of run id. */
  function Sorted(s: seq<Row>): (r: seq<Row>)
    ensures multiset(r) == multiset(s)
    ensures |r| == |s|
  {
    if s == [] then []
    else
      assert s == [s[0]] + s[1..];
      Insert(s[0], Sorted(s[1..]))
  }

  ghost predicate Distinct(s: seq<Row>) {
    forall i, j | 0 <= i < j < |s| :: s[i].runId != s[j].runId
  }

  ghost predicate Elements(s: seq<Row>, t: seq<Row>) {
    forall x :: x in s <==> x in t
  }

  lemma SameMultiset(s: seq<Row>, t: seq<Row>)
    requires multiset(s) == multiset(t)
    ensures Elements(s, t)
  {
    forall x ensures x in s <==> x in t {
      assert x in s <==> x in multiset(s);
      assert x in t <==> x in multiset(t);
    }
  }

  lemma PrependDesc(x: Row, s: seq<Row>)
    requires Desc(s) && forall y | y in s :: x.runId > y.runId
    ensures Desc([x] + s)
  {
  }

  lemma {:induction false} InsertDesc(x: Row, s: seq<Row>)
    requires Desc(s) && forall y | y in s :: y.runId != x.runId
    ensures Desc(Insert(x, s))
  {
    if s == [] || x.runId > s[0].runId {
      PrependDesc(x, s);
    } else {
      var rest := Insert(x, s[1..]);
      InsertDesc(x, s[1..]);
      SameMultiset(rest, s[1..] + [x]);
      forall y | y in rest ensures s[0].runId > y.runId {
        assert y in s[1..] || y == x;
      }
      PrependDesc(s[0], rest);
    }
  }

  lemma {:induction false} SortedDesc(s: seq<Row>)
    requires Distinct(s)
    ensures Desc(Sorted(s)) && Elements(Sorted(s), s)
  {
    if s != [] {
      SortedDesc(s[1..]);
      InsertDesc(s[0], Sorted(s[1..]));
    }
    SameMultiset(Sorted(s), s);
  }

  /** A descending list inside another: an element is never further back in the smaller one. */
  lemma {:induction false} SubListIndex(q: seq<Row>, j: nat, u: seq<Row>, i: nat)
    requires Desc(q) && Desc(u) && (forall x | x in q :: x in u)
    requires j < |q| && i < |u| && q[j] == u[i]
    ensures j <= i
    decreases j
  {
    if j > 0 {
      assert q[j - 1] in u;
      var k :| 0 <= k < |u| && u[k] == q[j - 1];
      assert q[j - 1].runId > q[j].runId;
      SubListIndex(q, j - 1, u, k);
    }
  }

  /** Lists with a common head: what is in the tail of one and in the other is in its tail. */
  lemma TailOf(u: seq<Row>, m: seq<Row>, x: Row)
    requires Desc(u) && Desc(m) && u != [] && m != [] && u[0] == m[0] && x in m[1..] && x in u
    ensures x in u[1..]
  {
    var k :| 0 <= k < |m[1..]| && m[1..][k] == x;
    assert x == m[k + 1] && x.runId < m[0].runId;
    var l :| 0 <= l < |u| && u[l] == x;
    assert u[1..][l - 1] == x;
  }

  lemma SameHead(u: seq<Row>, m: seq<Row>)
    requires Desc(u) && Desc(m) && u != [] && u[0] in m && m[0] in u
    ensures m[0] == u[0]
  {
  }

  /** If the first `w` elements of a descending list all occur in a part of it, that part starts
      with them too. */
  lemma {:induction false} SameTop(u: seq<Row>, m: seq<Row>, w: nat)
    requires Desc(u) && Desc(m) && (forall x | x in m :: x in u)
    requires w <= |u| && forall i | 0 <= i < w :: u[i] in m
    ensures w <= |m| && m[..w] == u[..w]
    decreases w
  {
    if w > 0 {
      assert u[0] in m && m[0] in u;
      SameHead(u, m);
      forall x | x in m[1..] ensures x in u[1..] {
        TailOf(u, m, x);
      }
      forall i | 0 <= i < w - 1 ensures u[1..][i] in m[1..] {
        assert u[i + 1] in m && u[i + 1] in u[1..];
        TailOf(m, u, u[i + 1]);
      }
      SameTop(u[1..], m[1..], w - 1);
      assert m[..w] == [m[0]] + m[1..][..w - 1] && u[..w] == [u[0]] + u[1..][..w - 1];
    }
  }

  lemma SameElementsSameList(u: seq<Row>, m: seq<Row>)
    requires Desc(u) && Desc(m) && Elements(u, m)
    ensures u == m
  {
    SameTop(u, m, |u|);
    SameTop(m, u, |m|);
    assert u[..|u|] == u && m[..|m|] == m;
  }

  // ----- the union and its pages -----

  function Wanted(rows: seq<Row>, search: bool): seq<Row> {
    if rows == [] then []
    else (if !search || rows[0].matches then [rows[0]] else []) + Wanted(rows[1..], search)
  }

  /** All rows of the queues that answer. */
  function Union(queues: seq<Queue>): seq<Row> {
    if queues == [] then []
    else (if queues[0].answers then queues[0].rows else []) + Union(queues[1..])
  }

  /** The whole result: every wanted row of every answering queue, newest first. */
  function Everything(queues: seq<Queue>, search: bool): seq<Row> {
    Sorted(Wanted(Union(queues), search))
  }

  function Clamp(n: int, len: nat): nat {
    if n < 0 then 0 else if n > len then len else n
  }

  function Slice(s: seq<Row>, from: int, to: int): seq<Row>
    requires from <= to
  {
    s[Clamp(from, |s|)..Clamp(to, |s|)]
  }

  /** The answer a reader of the API expects for the page that starts at row `start`: those rows
      of everything, an exact `hasMore`, and a total that is exact or -1. */
  ghost predicate IsPage(r: Response, all: seq<Row>, start: int, perPage: int)
    requires perPage >= 0
  {
    && r.Page?
    && r.items == Slice(all, start, start + perPage)
    && r.hasMore == (start + perPage < |all|)
    && r.total in {-1, |all|}
  }

  ghost predicate DbOk(queues: seq<Queue>) {
    && (forall q | q in queues :: Desc(q.rows))
    && Distinct(Union(queues))
  }

  // ----- the code -----

  /** What one queue contributes; `truncated` when the query found more than the limit. */
  datatype Cut = Cut(rows: seq<Row>, truncated: bool)

  /** `fetchQueueTaskCandidates`: the query with `LIMIT limit+1`; a negative LIMIT is an error. */
  function Candidates(q: Queue, limit: int): Option<Cut> {
    var queryLimit := Wrap64(limit + 1);
    if !q.answers || (limit > 0 && queryLimit < 0) then None
    else if limit > 0 then
      var got := q.rows[..Clamp(queryLimit, |q.rows|)];
      if |got| > limit then Some(Cut(got[..limit], true)) else Some(Cut(got, false))
    else Some(Cut(q.rows, false))
  }

  predicate Truncated(q: Queue, limit: int) {
    var c := Candidates(q, limit);
    c.Some? && c.value.truncated
  }

  function Merge(queues: seq<Queue>, limit: int): seq<Row> {
    if queues == [] then []
    else
      var c := Candidates(queues[0], limit);
      (if c.None? then [] else c.value.rows) + Merge(queues[1..], limit)
  }

  predicate AnyTruncated(queues: seq<Queue>, limit: int) {
    exists q | q in queues :: Truncated(q, limit)
  }

  /** The first row of a page, without Go's wrap-around. */
  function Offset(page: int, perPage: int): int {
    (page - 1) * perPage
  }

  function WindowSize(start: int, perPage: int): int {
    var w := Wrap64(Wrap64(start) + perPage + 1);
    if w < perPage + 1 then perPage + 1 else w
  }

  function Limit(start: int, perPage: int, search: bool): int {
    if search then 0 else WindowSize(start, perPage)
  }

  /** The response for the page at `offset`, as a function of the database. */
  function Respond(queues: seq<Queue>, offset: int, perPage: nat, search: bool): Response {
    var limit := Limit(offset, perPage, search);
    Window(Sorted(Wanted(Merge(queues, limit), search)), AnyTruncated(queues, limit), Wrap64(offset), perPage, search)
  }

  /** Slicing the sorted merge. */
  function Window(merged: seq<Row>, truncated: bool, offset: int, perPage: nat, search: bool): Response {
    var start := if offset > |merged| then |merged| else offset;
    if start < 0 then Crash
    else
      var end := if start + perPage > |merged| then |merged| else start + perPage;
      var total := if search || !truncated then |merged| else -1;
      Page(merged[start..end], total, if total >= 0 then end < total else |merged| > end || truncated)
  }

  /** `sort.Slice` with `RunID >`: some permutation in descending order. */
  method SortRows(rows: seq<Row>) returns (r: seq<Row>)
    requires Distinct(rows)
    ensures Desc(r) && multiset(r) == multiset(rows)
  {
    r := [];
    var i := 0;
    while i < |rows|
      invariant 0 <= i <= |rows| && Desc(r) && multiset(r) == multiset(rows[..i])
    {
      assert rows[..i + 1] == rows[..i] + [rows[i]];
      SameMultiset(r, rows[..i]);
      forall y | y in r ensures y.runId != rows[i].runId {
        assert y in rows[..i];
      }
      InsertDesc(rows[i], r);
      r := Insert(rows[i], r);
      i := i + 1;
    }
    assert rows[..i] == rows;
  }

  lemma TruncatedAppend(queues: seq<Queue>, q: Queue, limit: int)
    ensures AnyTruncated(queues + [q], limit) <==>
              AnyTruncated(queues, limit) || Truncated(q, limit)
  {
    assert q in queues + [q];
    forall p | p in queues ensures p in queues + [q] {
    }
  }

  /** One turn of the loop: what was fetched and what is still to come. */
  lemma MergeStep(queues: seq<Queue>, i: nat, limit: int, merged: seq<Row>, all: seq<Row>)
    requires i < |queues| && merged + Merge(queues[i..], limit) == all
    ensures var c := Candidates(queues[i], limit);
            (if c.None? then merged else merged + c.value.rows) + Merge(queues[i + 1..], limit) == all
  {
    var c := Candidates(queues[i], limit);
    var got, rest := if c.None? then [] else c.value.rows, Merge(queues[i + 1..], limit);
    assert queues[i..][1..] == queues[i + 1..];
    assert Merge(queues[i..], limit) == got + rest;
    assert merged + (got + rest) == (merged + got) + rest;
  }

  lemma TruncatedStep(queues: seq<Queue>, i: nat, limit: int)
    requires i < |queues|
    ensures AnyTruncated(queues[..i + 1], limit) <==>
              AnyTruncated(queues[..i], limit) || Truncated(queues[i], limit)
  {
    assert queues[..i + 1] == queues[..i] + [queues[i]];
    TruncatedAppend(queues[..i], queues[i], limit);
  }

  /** The loop over the selected queues. */
  method FetchAll(queues: seq<Queue>, limitPerQueue: int) returns (merged: seq<Row>, hasWindowTruncation: bool)
    ensures merged == Merge(queues, limitPerQueue)
    ensures hasWindowTruncation == AnyTruncated(queues, limitPerQueue)
  {
    merged, hasWindowTruncation := [], false;
    var i := 0;
    ghost var all := Merge(queues, limitPerQueue);
    assert queues[0..] == queues;
    while i < |queues|
      invariant 0 <= i <= |queues|
      invariant merged + Merge(queues[i..], limitPerQueue) == all
      invariant hasWindowTruncation == AnyTruncated(queues[..i], limitPerQueue)
    {
      MergeStep(queues, i, limitPerQueue, merged, all);
      TruncatedStep(queues, i, limitPerQueue);
      var c := Candidates(queues[i], limitPerQueue);
      if c.Some? {
        merged := merged + c.value.rows;
        if c.value.truncated {
          hasWindowTruncation := true;
        }
      }
      i := i + 1;
    }
    assert queues[..i] == queues && queues[i..] == [];
  }

  /** The free-text filter over the merged rows. */
  method Search(merged: seq<Row>) returns (searched: seq<Row>)
    ensures searched == Wanted(merged, true)
  {
    searched := [];
    var j := 0;
    while j < |merged|
      invariant 0 <= j <= |merged|
      invariant searched + Wanted(merged[j..], true) == Wanted(merged, true)
    {
      assert merged[j..][0] == merged[j] && merged[j..][1..] == merged[j + 1..];
      if merged[j].matches {
        searched := searched + [merged[j]];
      }
      j := j + 1;
    }
  }

  /** handleTasks from the window computation on. */
  method HandleTasks(queues: seq<Queue>, page: int, perPage: nat, search: bool) returns (r: Response)
    requires DbOk(queues)
    ensures r == Respond(queues, Offset(page, perPage), perPage, search)
  {
    var start := Wrap64((page - 1) * perPage);
    var windowSize := Wrap64(start + perPage + 1);
    if windowSize < perPage + 1 {
      windowSize := perPage + 1;
    }
    var limitPerQueue := windowSize;
    if search {
      limitPerQueue := 0;
    }
    assert limitPerQueue == Limit(Offset(page, perPage), perPage, search);
    var merged, hasWindowTruncation := FetchAll(queues, limitPerQueue);
    MergedOk(queues, limitPerQueue, search);
    WantedAll(merged);
    if search {
      merged := Search(merged);
    }
    merged := SortAsSpecified(merged);
    r := SliceWindow(merged, hasWindowTruncation, start, perPage, search);
  }

  method SortAsSpecified(rows: seq<Row>) returns (r: seq<Row>)
    requires Distinct(rows)
    ensures r == Sorted(rows)
  {
    r := SortRows(rows);
    SortedDesc(rows);
    SameMultiset(r, rows);
    SameElementsSameList(r, Sorted(rows));
  }

  /** Total, clamping, `hasMore` and the slice. */
  method SliceWindow(merged: seq<Row>, hasWindowTruncation: bool, offset: int, perPage: nat, search: bool)
      returns (r: Response)
    ensures r == Window(merged, hasWindowTruncation, offset, perPage, search)
  {
    var start := offset;
    var total := -1;
    if search || !hasWindowTruncation {
      total := |merged|;
    }
    if start > |merged| {
      start := |merged|;
    }
    var end := start + perPage;
    if end > |merged| {
      end := |merged|;
    }
    var hasMore := |merged| > end || hasWindowTruncation;
    if total >= 0 {
      hasMore := end < total;
    }
    if start < 0 {
      return Crash;
    }
    r := Page(merged[start..end], total, hasMore);
  }

  // ----- cuts and unions -----

  lemma {:induction false} WantedAll(rows: seq<Row>)
    ensures Wanted(rows, false) == rows
  {
    if rows != [] {
      WantedAll(rows[1..]);
    }
  }

  lemma {:induction false} WantedElements(rows: seq<Row>, search: bool)
    ensures forall x :: x in Wanted(rows, search) <==> x in rows && (!search || x.matches)
    ensures |Wanted(rows, search)| <= |rows|
  {
    if rows != [] {
      WantedElements(rows[1..], search);
      assert rows == [rows[0]] + rows[1..];
    }
  }

  lemma {:induction false} WantedDistinct(rows: seq<Row>, search: bool)
    requires Distinct(rows)
    ensures Distinct(Wanted(rows, search))
  {
    if rows != [] {
      WantedDistinct(rows[1..], search);
      WantedElements(rows[1..], search);
      forall y | y in Wanted(rows[1..], search) ensures y.runId != rows[0].runId {
        assert y in rows[1..];
      }
    }
  }

  lemma {:induction false} UnionElements(queues: seq<Queue>)
    ensures forall x :: x in Union(queues) <==> exists q | q in queues :: q.answers && x in q.rows
  {
    if queues != [] {
      UnionElements(queues[1..]);
      assert queues == [queues[0]] + queues[1..];
    }
  }

  lemma {:induction false} MergeElements(queues: seq<Queue>, limit: int)
    ensures forall x :: x in Merge(queues, limit) <==>
              exists q | q in queues :: Candidates(q, limit).Some? && x in Candidates(q, limit).value.rows
  {
    if queues != [] {
      MergeElements(queues[1..], limit);
      assert queues == [queues[0]] + queues[1..];
    }
  }

  lemma DistinctParts(a: seq<Row>, b: seq<Row>)
    requires Distinct(a + b)
    ensures Distinct(a) && Distinct(b) && forall x, y | x in a && y in b :: x.runId != y.runId
  {
    forall i, j | 0 <= i < j < |a| ensures a[i].runId != a[j].runId {
      assert (a + b)[i] == a[i] && (a + b)[j] == a[j];
    }
    forall i, j | 0 <= i < j < |b| ensures b[i].runId != b[j].runId {
      assert (a + b)[|a| + i] == b[i] && (a + b)[|a| + j] == b[j];
    }
    forall x, y | x in a && y in b ensures x.runId != y.runId {
      var i :| 0 <= i < |a| && a[i] == x;
      var j :| 0 <= j < |b| && b[j] == y;
      assert (a + b)[i] == x && (a + b)[|a| + j] == y;
    }
  }

  lemma {:induction false} MergeDistinct(queues: seq<Queue>, limit: int)
    requires Distinct(Union(queues))
    ensures Distinct(Merge(queues, limit))
    ensures forall x | x in Merge(queues, limit) :: x in Union(queues)
  {
    if queues != [] {
      var q := queues[0];
      DistinctParts(if q.answers then q.rows else [], Union(queues[1..]));
      MergeDistinct(queues[1..], limit);
      var c := Candidates(q, limit);
      if c.Some? {
        assert c.value.rows == q.rows[..|c.value.rows|];
      }
    }
  }

  lemma MergedOk(queues: seq<Queue>, limit: int, search: bool)
    requires DbOk(queues)
    ensures Distinct(Merge(queues, limit)) && Distinct(Wanted(Merge(queues, limit), search))
  {
    MergeDistinct(queues, limit);
    WantedDistinct(Merge(queues, limit), search);
  }

  lemma EverythingOk(queues: seq<Queue>, search: bool)
    requires DbOk(queues)
    ensures Desc(Everything(queues, search))
    ensures forall x :: x in Everything(queues, search) <==> x in Union(queues) && (!search || x.matches)
  {
    WantedDistinct(Union(queues), search);
    WantedElements(Union(queues), search);
    SortedDesc(Wanted(Union(queues), search));
  }

  // ----- the page is a page of everything -----

  /** Which pages stay within 64 bits: the window, and the one extra row asked of the store. */
  predicate Fits64(start: int, perPage: int, search: bool) {
    start + (if search then 0 else perPage + 2) <= MAX_INT64
  }

  /** A request as the query parameters allow it. */
  predicate RequestOk(page: int, perPage: int) {
    1 <= page <= MAX_INT64 && 1 <= perPage <= 200
  }

  predicate WindowOk(start: int, perPage: int) {
    0 <= start && 1 <= perPage <= 200
  }

  lemma WindowExact(start: int, perPage: int)
    requires WindowOk(start, perPage) && Fits64(start, perPage, false)
    ensures WindowSize(start, perPage) == start + perPage + 1 < MAX_INT64
  {
  }

  /** A queue's cut is its newest `limit` rows, and says truthfully whether rows were left out. */
  lemma CutIsTop(q: Queue, limit: int)
    requires q.answers && 0 < limit < MAX_INT64
    ensures Candidates(q, limit).Some?
    ensures Candidates(q, limit).value.rows == q.rows[..Clamp(limit, |q.rows|)]
    ensures Candidates(q, limit).value.truncated <==> |q.rows| > limit
  {
  }

  /** Every row among the first `limit` of everything survives the cut of its queue. */
  lemma TopSurvives(queues: seq<Queue>, limit: int, i: nat)
    requires DbOk(queues) && 0 < limit < MAX_INT64
    requires i < |Everything(queues, false)| && i < limit
    ensures Everything(queues, false)[i] in Merge(queues, limit)
  {
    var all := Everything(queues, false);
    EverythingOk(queues, false);
    UnionElements(queues);
    MergeElements(queues, limit);
    var x := all[i];
    assert x in all;
    var q :| q in queues && q.answers && x in q.rows;
    var j :| 0 <= j < |q.rows| && q.rows[j] == x;
    assert forall y | y in q.rows :: y in all;
    SubListIndex(q.rows, j, all, i);
    CutIsTop(q, limit);
    assert q.rows[..Clamp(limit, |q.rows|)][j] == x;
  }

  /** The merged cuts, sorted, start with the first `limit` rows of everything. */
  lemma MergedTop(queues: seq<Queue>, limit: int)
    requires DbOk(queues) && 0 < limit < MAX_INT64
    ensures var all, merged := Everything(queues, false), Sorted(Wanted(Merge(queues, limit), false));
            var w := Clamp(limit, |all|);
            && Desc(all) && Desc(merged) && w <= |merged| <= |all| && merged[..w] == all[..w]
            && (forall x | x in merged :: x in all)
  {
    var all, merged := Everything(queues, false), Sorted(Wanted(Merge(queues, limit), false));
    EverythingOk(queues, false);
    MergedOk(queues, limit, false);
    MergeDistinct(queues, limit);
    WantedAll(Merge(queues, limit));
    SortedDesc(Merge(queues, limit));
    forall i | 0 <= i < Clamp(limit, |all|) ensures all[i] in merged {
      TopSurvives(queues, limit, i);
    }
    SameTop(all, merged, Clamp(limit, |all|));
    SubListShorter(merged, all);
  }

  lemma SubListShorter(q: seq<Row>, u: seq<Row>)
    requires Desc(q) && Desc(u) && (forall x | x in q :: x in u)
    ensures |q| <= |u|
  {
    if |q| > 0 {
      var x := q[|q| - 1];
      assert x in u;
      var k :| 0 <= k < |u| && u[k] == x;
      SubListIndex(q, |q| - 1, u, k);
    }
  }

  /** Rows are missing from the merge only when some queue was truncated, and then more rows than
      the window remain. */
  lemma {:induction false} TruncationTells(queues: seq<Queue>, limit: int)
    requires 0 < limit < MAX_INT64
    ensures AnyTruncated(queues, limit) ==> |Union(queues)| > limit
    ensures !AnyTruncated(queues, limit) ==> Merge(queues, limit) == Union(queues)
  {
    if queues != [] {
      var q := queues[0];
      TruncationTells(queues[1..], limit);
      assert queues == [q] + queues[1..];
      if q.answers {
        CutIsTop(q, limit);
        assert q.rows[..|q.rows|] == q.rows;
      }
      assert AnyTruncated(queues, limit) <==>
               Truncated(q, limit) || AnyTruncated(queues[1..], limit);
    }
  }

  lemma {:induction false} UnlimitedMerge(queues: seq<Queue>)
    ensures Merge(queues, 0) == Union(queues) && !AnyTruncated(queues, 0)
  {
    if queues != [] {
      UnlimitedMerge(queues[1..]);
      assert queues == [queues[0]] + queues[1..];
    }
  }

  lemma SearchPage(queues: seq<Queue>, start: int, perPage: int)
    requires DbOk(queues) && WindowOk(start, perPage) && Fits64(start, perPage, true)
    ensures IsPage(Respond(queues, start, perPage, true), Everything(queues, true), start, perPage)
  {
    UnlimitedMerge(queues);
    PlainSlices(Everything(queues, true), start, perPage, true);
    assert Respond(queues, start, perPage, true) == Window(Everything(queues, true), false, start, perPage, true);
  }

  /** A window that agrees with everything on its first `limit` rows slices the same page. */
  lemma WindowSlices(all: seq<Row>, merged: seq<Row>, start: int, perPage: int, limit: int)
    requires WindowOk(start, perPage) && limit == start + perPage + 1
    requires limit < |all| && limit <= |merged| <= |all| && merged[..limit] == all[..limit]
    ensures IsPage(Window(merged, true, start, perPage, false), all, start, perPage)
  {
    assert merged[start..start + perPage] == merged[..limit][start..start + perPage];
    assert all[start..start + perPage] == all[..limit][start..start + perPage];
  }

  lemma WindowPage(queues: seq<Queue>, start: int, perPage: int)
    requires DbOk(queues) && WindowOk(start, perPage) && Fits64(start, perPage, false)
    ensures IsPage(Respond(queues, start, perPage, false), Everything(queues, false), start, perPage)
  {
    WindowExact(start, perPage);
    var limit := WindowSize(start, perPage);
    MergedTop(queues, limit);
    TruncationTells(queues, limit);
    WantedAll(Union(queues));
    var all, merged := Everything(queues, false), Sorted(Wanted(Merge(queues, limit), false));
    if AnyTruncated(queues, limit) {
      WindowSlices(all, merged, start, perPage, limit);
    } else {
      assert merged == all;
      PlainSlices(all, start, perPage, false);
    }
  }

  lemma PlainSlices(all: seq<Row>, start: int, perPage: int, search: bool)
    requires WindowOk(start, perPage) && start <= MAX_INT64
    ensures IsPage(Window(all, false, start, perPage, search), all, start, perPage)
  {
  }

  /** handleTasks answers with the page of the sorted union over all queues that answered,
      although each queue was cut to its newest rows; `hasMore` is exact, the total exact or -1. */
  lemma PageOfEverything(queues: seq<Queue>, start: int, perPage: int, search: bool)
    requires DbOk(queues) && WindowOk(start, perPage) && Fits64(start, perPage, search)
    ensures IsPage(Respond(queues, start, perPage, search), Everything(queues, search), start, perPage)
  {
    if search {
      SearchPage(queues, start, perPage);
    } else {
      WindowPage(queues, start, perPage);
    }
  }

  // ----- and exactly then -----

  ghost predicate AlwaysAPage(start: int, perPage: int, search: bool)
    requires perPage >= 0
  {
    forall queues | DbOk(queues) ::
        IsPage(Respond(queues, start, perPage, search), Everything(queues, search), start, perPage)
  }

  /** One queue with `n` rows that all match. */
  function OneQueue(n: nat): seq<Queue> {
    [Queue(seq(n, i requires 0 <= i < n => Row(n - i, true)), true)]
  }

  lemma {:induction false} WantedMatching(rows: seq<Row>, search: bool)
    requires forall x | x in rows :: x.matches
    ensures Wanted(rows, search) == rows
  {
    if rows != [] {
      assert rows[0] in rows && forall x | x in rows[1..] :: x in rows;
      WantedMatching(rows[1..], search);
    }
  }

  lemma DescPrefixSorted(rows: seq<Row>, k: nat, search: bool)
    requires Desc(rows) && k <= |rows| && forall x | x in rows :: x.matches
    ensures Sorted(Wanted(rows[..k], search)) == rows[..k]
  {
    forall x | x in rows[..k] ensures x.matches {
      assert x in rows;
    }
    WantedMatching(rows[..k], search);
    SortedDesc(rows[..k]);
    SameElementsSameList(Sorted(rows[..k]), rows[..k]);
  }

  lemma OneQueueFacts(n: nat, search: bool)
    ensures var rows := OneQueue(n)[0].rows;
            && DbOk(OneQueue(n)) && Union(OneQueue(n)) == rows && |rows| == n && Desc(rows)
            && (forall x | x in rows :: x.matches)
            && Everything(OneQueue(n), search) == rows
  {
    var rows := OneQueue(n)[0].rows;
    assert OneQueue(n)[1..] == [];
    assert Union(OneQueue(n)) == rows + [] == rows;
    assert Desc(rows) && Distinct(rows);
    DescPrefixSorted(rows, n, search);
    assert rows[..n] == rows;
  }

  lemma OneQueueMerge(n: nat, limit: int)
    ensures Merge(OneQueue(n), limit) ==
              (if Candidates(OneQueue(n)[0], limit).None? then [] else Candidates(OneQueue(n)[0], limit).value.rows)
    ensures AnyTruncated(OneQueue(n), limit) <==>
              Truncated(OneQueue(n)[0], limit)
  {
    assert OneQueue(n)[1..] == [];
    assert Merge([], limit) == [];
    assert OneQueue(n)[0] in OneQueue(n);
  }

  /** A window start that wrapped to a negative number crashes the slice. */
  lemma NegativeStartCrashes(start: int, perPage: int, search: bool)
    requires WindowOk(start, perPage) && Wrap64(start) < 0
    ensures !AlwaysAPage(start, perPage, search)
  {
    OneQueueFacts(0, search);
    assert Respond(OneQueue(0), start, perPage, search) == Crash;
  }

  /** One that wrapped to a usable number answers with rows from the wrong page. */
  lemma WrongStartWrongRows(start: int, perPage: int, search: bool)
    requires WindowOk(start, perPage) && start > MAX_INT64
    requires 0 <= Wrap64(start) && (search || Wrap64(start) + perPage + 2 <= MAX_INT64)
    ensures !AlwaysAPage(start, perPage, search)
  {
    var s := Wrap64(start);
    var n := s + 1;
    var limit := Limit(start, perPage, search);
    OneQueueFacts(n, search);
    OneQueueMerge(n, limit);
    var rows := OneQueue(n)[0].rows;
    assert rows[..n] == rows;
    AllRowsFit(OneQueue(n)[0], limit);
    DescPrefixSorted(rows, n, search);
    assert Respond(OneQueue(n), start, perPage, search) == Window(rows, false, s, perPage, search);
    LastRowShown(rows, s, start, perPage, search);
  }

  lemma AllRowsFit(q: Queue, limit: int)
    requires q.answers && (limit == 0 || |q.rows| <= limit < MAX_INT64)
    ensures Candidates(q, limit) == Some(Cut(q.rows, false))
  {
    assert q.rows[..|q.rows|] == q.rows;
  }

  lemma LastRowShown(rows: seq<Row>, s: nat, start: int, perPage: int, search: bool)
    requires WindowOk(start, perPage) && |rows| == s + 1 && start >= |rows|
    ensures !IsPage(Window(rows, false, s, perPage, search), rows, start, perPage)
  {
    assert |Window(rows, false, s, perPage, search).items| == 1;
    assert |Slice(rows, start, start + perPage)| == 0;
  }

  /** At the very edge the extra row's LIMIT wraps, no queue answers, and the total is wrong. */
  lemma NegativeLimitLosesRows(start: int, perPage: int)
    requires WindowOk(start, perPage) && 0 <= Wrap64(start) && Wrap64(start) + perPage + 1 == MAX_INT64
    ensures !AlwaysAPage(start, perPage, false)
  {
    var limit := Limit(start, perPage, false);
    OneQueueFacts(1, false);
    OneQueueMerge(1, limit);
    assert Wrap64(limit + 1) < 0;
    assert Merge(OneQueue(1), limit) == [];
    assert Sorted(Wanted([], false)) == [];
    assert Respond(OneQueue(1), start, perPage, false).total == 0;
  }

  /** A window size that wrapped falls back to one page: `hasMore` is claimed beyond the end. */
  lemma WrappedWindowClaimsMore(start: int, perPage: int)
    requires WindowOk(start, perPage) && 0 <= Wrap64(start)
    requires Wrap64(start) + perPage + 1 > MAX_INT64 && start > 1000
    ensures !AlwaysAPage(start, perPage, false)
  {
    var limit := Limit(start, perPage, false);
    assert limit == perPage + 1;
    var n := perPage + 2;
    OneQueueFacts(n, false);
    OneQueueMerge(n, limit);
    CutIsTop(OneQueue(n)[0], limit);
    assert AnyTruncated(OneQueue(n), limit);
    assert Respond(OneQueue(n), start, perPage, false).hasMore;
  }

  lemma OverflowBreaksPaging(start: int, perPage: int, search: bool)
    requires WindowOk(start, perPage) && !Fits64(start, perPage, search)
    ensures !AlwaysAPage(start, perPage, search)
  {
    var s := Wrap64(start);
    if s < 0 {
      NegativeStartCrashes(start, perPage, search);
    } else if search || s + perPage + 2 <= MAX_INT64 {
      WrongStartWrongRows(start, perPage, search);
    } else if s + perPage + 1 == MAX_INT64 {
      NegativeLimitLosesRows(start, perPage);
    } else {
      WrappedWindowClaimsMore(start, perPage);
    }
  }

  lemma OffsetNonNegative(page: int, perPage: int)
    requires RequestOk(page, perPage)
    ensures Offset(page, perPage) >= 0
  {
  }

  /** The exact condition on a request: the paging law holds on every database if and only if the
      window fits in 64 bits. */
  lemma PagingExact(page: int, perPage: int, search: bool)
    requires RequestOk(page, perPage)
    ensures AlwaysAPage(Offset(page, perPage), perPage, search) <==> Fits64(Offset(page, perPage), perPage, search)
  {
    OffsetNonNegative(page, perPage);
    var start := Offset(page, perPage);
    if Fits64(start, perPage, search) {
      forall queues | DbOk(queues)
        ensures IsPage(Respond(queues, start, perPage, search), Everything(queues, search), start, perPage)
      {
        PageOfEverything(queues, start, perPage, search);
      }
    } else {
      OverflowBreaksPaging(start, perPage, search);
    }
  }
}
