/** The one history a deterministic handler can have: which checkpoints a list of observed
    values stands for, which histories can happen, and when a step name does harm. */
module History {
  import opened Prelude
  import opened Store
  import opened Names
  import opened Replay

  /** How often the handler used a step name while observing `p`. */
  ghost function UsesOf(h: Handler, p: seq<Value>, name: string): nat
    decreases |p|
  {
    if p == [] then 0
    else
      var q := p[..|p| - 1];
      UsesOf(h, q, name) + (if h(q).Takes() && h(q).name == name then 1 else 0)
  }

  /** The checkpoint name of the action the handler takes after observing `p`. */
  ghost function NameAt(h: Handler, p: seq<Value>): string
    requires h(p).Takes()
  {
    CheckpointName(h(p).name, UsesOf(h, p, h(p).name) + 1)
  }

  /** `p` is a sequence of values the handler asked for, each sleep holding a time. */
  ghost predicate Chain(h: Handler, p: seq<Value>) {
    forall i | 0 <= i < |p| :: h(p[..i]).Takes() && (h(p[..i]).Sleep? ==> p[i].Time?)
  }

  /** The checkpoint rows a history consists of. */
  ghost function Table(h: Handler, p: seq<Value>): map<string, Value>
    requires Chain(h, p)
    decreases |p|
  {
    if p == [] then map[]
    else
      ChainPrefix(h, p, |p| - 1);
      assert h(p[..|p| - 1]).Takes();
      Table(h, p[..|p| - 1])[NameAt(h, p[..|p| - 1]) := p[|p| - 1]]
  }

  lemma ChainPrefix(h: Handler, p: seq<Value>, k: nat)
    requires Chain(h, p) && k <= |p|
    ensures Chain(h, p[..k])
  {
    forall i | 0 <= i < k ensures h(p[..k][..i]).Takes() && (h(p[..k][..i]).Sleep? ==> p[..k][i].Time?) {
      assert p[..k][..i] == p[..i];
    }
  }

  /** The actions along a history have different checkpoint names. */
  ghost predicate Distinct(h: Handler, p: seq<Value>) {
    && Chain(h, p)
    && forall i, j | 0 <= i < j < |p| :: NameAt(h, p[..i]) != NameAt(h, p[..j])
  }

  /** The store does not refuse the names of an action. */
  predicate Accepted(a: Action, checkpoint: string) {
    if a.Await? then !Blank(a.event) else !Blank(checkpoint)
  }

  /** Waits on one event observe one payload. */
  ghost predicate OnePayload(h: Handler, p: seq<Value>) {
    forall i, j | 0 <= i < j < |p| && SameEvent(h(p[..i]), h(p[..j])) :: p[i] == p[j]
  }

  predicate SameEvent(a: Action, b: Action) {
    a.Await? && b.Await? && a.event == b.event
  }

  /** A history that can happen: every action got a row of its own, under names the store takes,
      and an event has one payload. */
  ghost predicate Live(h: Handler, p: seq<Value>) {
    && Distinct(h, p)
    && OnePayload(h, p)
    && forall i | 0 <= i < |p| :: Accepted(h(p[..i]), NameAt(h, p[..i]))
  }

  /** The name of the action after `p` has no row yet. */
  ghost predicate Fresh(h: Handler, p: seq<Value>) {
    Chain(h, p) && h(p).Takes() && NameAt(h, p) !in Table(h, p)
  }

  /** A sleep that finds a stored value that is no time: the run fails, again at every attempt. */
  predicate Unreadable(a: Action, found: Value) {
    a.Sleep? && WakeTime(found, 0).None?
  }

  /** No action of a possible history gets the checkpoint name of an earlier one, except a sleep
      that cannot read what it finds. */
  ghost predicate NoHarmfulCollision(h: Handler) {
    forall p: seq<Value>, i: nat | i < |p| && Live(h, p) && h(p).Takes() && NameAt(h, p[..i]) == NameAt(h, p) ::
      Unreadable(h(p), p[i])
  }

  ghost predicate HashFreeHandler(h: Handler) {
    forall p: seq<Value> | h(p).Takes() :: HashFree(h(p).name)
  }

  lemma {:induction false} UsesGrow(h: Handler, p: seq<Value>, i: nat, name: string)
    requires i < |p| && h(p[..i]).Takes() && h(p[..i]).name == name
    ensures UsesOf(h, p[..i], name) < UsesOf(h, p, name)
    decreases |p|
  {
    var q := p[..|p| - 1];
    if i < |p| - 1 {
      assert q[..i] == p[..i];
      UsesGrow(h, q, i, name);
    }
  }

  /** Names without `#` never collide. */
  lemma HashFreeNeverCollides(h: Handler)
    requires HashFreeHandler(h)
    ensures NoHarmfulCollision(h)
  {
    forall p: seq<Value>, i: nat | i < |p| && Live(h, p) && h(p).Takes()
      ensures NameAt(h, p[..i]) != NameAt(h, p)
    {
      HashFreeDiffer(h, p, i);
    }
  }

  lemma HashFreeDiffer(h: Handler, p: seq<Value>, i: nat)
    requires HashFreeHandler(h) && i < |p| && h(p[..i]).Takes() && h(p).Takes()
    ensures NameAt(h, p[..i]) != NameAt(h, p)
  {
    var q := p[..i];
    var a, b := UsesOf(h, q, h(q).name) + 1, UsesOf(h, p, h(p).name) + 1;
    if h(q).name == h(p).name {
      UsesGrow(h, p, i, h(p).name);
    }
    if CheckpointName(h(q).name, a) == CheckpointName(h(p).name, b) {
      HashFreeInjective(h(q).name, a, h(p).name, b);
    }
  }

  lemma TableExtend(h: Handler, p: seq<Value>, v: Value)
    requires Chain(h, p) && h(p).Takes() && (h(p).Sleep? ==> v.Time?)
    ensures Chain(h, p + [v])
    ensures Table(h, p + [v]) == Table(h, p)[NameAt(h, p) := v]
  {
    var r := p + [v];
    forall i | 0 <= i < |r| ensures h(r[..i]).Takes() && (h(r[..i]).Sleep? ==> r[i].Time?) {
      assert r[..i] == if i < |p| then p[..i] else p;
    }
    assert r[..|r| - 1] == p;
  }

  lemma DistinctPrefix(h: Handler, p: seq<Value>, k: nat)
    requires Distinct(h, p) && k <= |p|
    ensures Distinct(h, p[..k])
  {
    ChainPrefix(h, p, k);
    assert forall i | 0 <= i <= k :: p[..k][..i] == p[..i];
  }

  lemma LivePrefix(h: Handler, p: seq<Value>, k: nat)
    requires Live(h, p) && k <= |p|
    ensures Live(h, p[..k])
  {
    DistinctPrefix(h, p, k);
    assert forall i | 0 <= i <= k :: p[..k][..i] == p[..i];
  }

  /** A row is there because of some action. */
  lemma {:induction false} RowHasAction(h: Handler, p: seq<Value>, n: string) returns (i: nat)
    requires Chain(h, p) && n in Table(h, p)
    ensures i < |p| && h(p[..i]).Takes() && n == NameAt(h, p[..i])
    decreases |p|
  {
    var q := p[..|p| - 1];
    ChainPrefix(h, p, |p| - 1);
    if n in Table(h, q) {
      i := RowHasAction(h, q, n);
      assert q[..i] == p[..i];
    } else {
      i := |p| - 1;
    }
  }

  /** Every action left a row. */
  lemma {:induction false} RowPresent(h: Handler, p: seq<Value>, j: nat)
    requires Chain(h, p) && j < |p|
    ensures h(p[..j]).Takes() && NameAt(h, p[..j]) in Table(h, p)
    decreases |p|
  {
    var q := p[..|p| - 1];
    ChainPrefix(h, p, |p| - 1);
    if j < |q| {
      assert q[..j] == p[..j];
      RowPresent(h, q, j);
    }
  }

  /** Position `k` of a history is the row of the action taken there: looking up an action of the
      past finds what it observed. */
  lemma {:induction false} RowAt(h: Handler, p: seq<Value>, k: nat)
    requires Distinct(h, p) && k < |p|
    ensures h(p[..k]).Takes() && NameAt(h, p[..k]) in Table(h, p)
    ensures Table(h, p)[NameAt(h, p[..k])] == p[k]
    decreases |p|
  {
    var q := p[..|p| - 1];
    DistinctPrefix(h, p, |p| - 1);
    if k < |q| {
      assert q[..k] == p[..k];
      RowAt(h, q, k);
      assert NameAt(h, p[..k]) != NameAt(h, p[..|q|]);
    }
  }

  /** A new name differs from all earlier ones, and only a new one does. */
  lemma FreshMeansNew(h: Handler, p: seq<Value>)
    requires Chain(h, p) && h(p).Takes()
    ensures Fresh(h, p) <==> forall i | 0 <= i < |p| :: NameAt(h, p[..i]) != NameAt(h, p)
  {
    if Fresh(h, p) {
      forall i | 0 <= i < |p| ensures NameAt(h, p[..i]) != NameAt(h, p) {
        RowPresent(h, p, i);
      }
    } else {
      var i := RowHasAction(h, p, NameAt(h, p));
    }
  }

  lemma DistinctExtend(h: Handler, p: seq<Value>, v: Value)
    requires Distinct(h, p) && Fresh(h, p) && (h(p).Sleep? ==> v.Time?)
    ensures Distinct(h, p + [v])
  {
    var r := p + [v];
    TableExtend(h, p, v);
    FreshMeansNew(h, p);
    assert forall i | 0 <= i < |r| :: r[..i] == if i < |p| then p[..i] else p;
  }

  lemma LiveExtend(h: Handler, p: seq<Value>, v: Value)
    requires Live(h, p) && Fresh(h, p) && (h(p).Sleep? ==> v.Time?) && Accepted(h(p), NameAt(h, p))
    requires forall i | 0 <= i < |p| && SameEvent(h(p[..i]), h(p)) :: p[i] == v
    ensures Live(h, p + [v])
  {
    var r := p + [v];
    DistinctExtend(h, p, v);
    assert forall i | 0 <= i < |r| :: r[..i] == if i < |p| then p[..i] else p;
  }

  /** The rows of a history stay, with their values, in every longer history. */
  lemma TableGrows(h: Handler, p: seq<Value>, q: seq<Value>)
    requires Distinct(h, q) && p <= q && Chain(h, p)
    ensures forall n | n in Table(h, p) :: n in Table(h, q) && Table(h, q)[n] == Table(h, p)[n]
  {
    assert q[..|p|] == p;
    DistinctPrefix(h, q, |p|);
    forall n | n in Table(h, p) ensures n in Table(h, q) && Table(h, q)[n] == Table(h, p)[n] {
      var i := RowHasAction(h, p, n);
      RowAt(h, p, i);
      RowAt(h, q, i);
      assert q[..i] == p[..i];
    }
  }

  /** Two tables give a name they share one value. */
  ghost predicate RowsAgree(m: map<string, Value>, n: map<string, Value>) {
    forall k | k in m && k in n :: m[k] == n[k]
  }

  lemma {:induction false} RowsDetermine(h: Handler, p: seq<Value>, q: seq<Value>, k: nat)
    requires Distinct(h, p) && Distinct(h, q) && RowsAgree(Table(h, p), Table(h, q))
    requires k <= |p| && k <= |q|
    ensures p[..k] == q[..k]
    decreases k
  {
    if k > 0 {
      RowsDetermine(h, p, q, k - 1);
      RowAt(h, p, k - 1);
      RowAt(h, q, k - 1);
      OneLonger(p, q, k);
    }
  }

  lemma OneLonger(p: seq<Value>, q: seq<Value>, k: nat)
    requires 0 < k <= |p| && k <= |q| && p[..k - 1] == q[..k - 1] && p[k - 1] == q[k - 1]
    ensures p[..k] == q[..k]
  {
    assert p[..k] == p[..k - 1] + [p[k - 1]] && q[..k] == q[..k - 1] + [q[k - 1]];
  }

  lemma {:induction false} TableSize(h: Handler, p: seq<Value>)
    requires Distinct(h, p)
    ensures |Table(h, p)| == |p|
    decreases |p|
  {
    if p != [] {
      var q := p[..|p| - 1];
      DistinctPrefix(h, p, |q|);
      TableSize(h, q);
      assert forall i | 0 <= i < |q| :: q[..i] == p[..i];
      FreshMeansNew(h, q);
    }
  }

  /** Two histories with the same rows are equal: the rows determine the history. */
  lemma SameRowsSameHistory(h: Handler, p: seq<Value>, q: seq<Value>)
    requires Distinct(h, p) && Distinct(h, q) && Table(h, p) == Table(h, q)
    ensures p == q
  {
    TableSize(h, p);
    TableSize(h, q);
    RowsDetermine(h, p, q, |p|);
    assert p[..|p|] == p && q[..|q|] == q;
  }
}
