/** Checkpoint names.  The Go, TypeScript and Python task contexts number repeated
    step names (`charge`, `charge#2`, ...); the Java context prefixes every key with
    one run-wide counter.  This module gives both schemes and their exact collision laws. */
module Names {

  const DIGITS: string := "0123456789"

  /** Decimal notation, as `%d` prints a non-negative integer. */
  function Decimal(n: nat): (s: string)
    ensures |s| > 0
    ensures forall i | 0 <= i < |s| :: s[i] in DIGITS
  {
    if n < 10 then [DIGITS[n]] else Decimal(n / 10) + [DIGITS[n % 10]]
  }

  lemma DigitsDiffer(i: nat, j: nat)
    requires i < 10 && j < 10 && DIGITS[i] == DIGITS[j]
    ensures i == j
  {
  }

  lemma {:induction false} DecimalInjective(m: nat, n: nat)
    requires Decimal(m) == Decimal(n)
    ensures m == n
  {
    var a, b := Decimal(m), Decimal(n);
    assert a[|a| - 1] == DIGITS[m % 10] && b[|b| - 1] == DIGITS[n % 10];
    DigitsDiffer(m % 10, n % 10);
    if m >= 10 && n >= 10 {
      assert a[..|a| - 1] == Decimal(m / 10) && b[..|b| - 1] == Decimal(n / 10);
      DecimalInjective(m / 10, n / 10);
    }
  }

  /** The name of the `count`-th use (from 1) of a step name within one run. */
  function CheckpointName(name: string, count: nat): string {
    if count == 1 then name else name + "#" + Decimal(count)
  }

  predicate HashFree(name: string) {
    '#' !in name
  }

  /** The last separator of `n + c + d` is the one in front of `d`, if `d` holds none. */
  lemma LastSeparator(n: string, c: char, d: string)
    requires c !in d
    ensures (n + [c] + d)[|n|] == c
    ensures forall k | |n| < k < |n| + 1 + |d| :: (n + [c] + d)[k] != c
  {
    forall k | |n| < k < |n| + 1 + |d| ensures (n + [c] + d)[k] != c {
      assert (n + [c] + d)[k] == d[k - |n| - 1];
    }
  }

  /** The first separator of `d + c + n` is the one behind `d`, if `d` holds none. */
  lemma FirstSeparator(d: string, c: char, n: string)
    requires c !in d
    ensures (d + [c] + n)[|d|] == c
    ensures forall k | 0 <= k < |d| :: (d + [c] + n)[k] != c
  {
    forall k | 0 <= k < |d| ensures (d + [c] + n)[k] != c {
      assert (d + [c] + n)[k] == d[k];
    }
  }

  lemma PartsEqual(n: string, c: char, d: string, m: string, e: string)
    requires n + [c] + d == m + [c] + e && |n| == |m|
    ensures n == m && d == e
  {
    assert (n + [c] + d)[..|n|] == n && (m + [c] + e)[..|m|] == m;
    assert (n + [c] + d)[|n| + 1..] == d && (m + [c] + e)[|m| + 1..] == e;
  }

  /** Two texts that end in `#` and digits agree only part by part: the digits hold no `#`. */
  lemma HashSplitUnique(n: string, d: string, m: string, e: string)
    requires n + "#" + d == m + "#" + e
    requires '#' !in d && '#' !in e
    ensures n == m && d == e
  {
    LastSeparator(n, '#', d);
    LastSeparator(m, '#', e);
    PartsEqual(n, '#', d, m, e);
  }

  /** The collision law: two uses share a checkpoint name exactly when they are the same
      use, or one is the first use of a name that spells out the other's `name#count`. */
  lemma CollisionLaw(n: string, i: nat, m: string, j: nat)
    requires i >= 1 && j >= 1
    ensures CheckpointName(n, i) == CheckpointName(m, j) <==>
              || (n == m && i == j)
              || (i == 1 && j > 1 && n == m + "#" + Decimal(j))
              || (j == 1 && i > 1 && m == n + "#" + Decimal(i))
  {
    if i > 1 && j > 1 {
      BothNumbered(n, i, m, j);
    } else if i == 1 && j > 1 {
      assert n == m ==> |CheckpointName(m, j)| > |n|;
    } else if j == 1 && i > 1 {
      assert n == m ==> |CheckpointName(n, i)| > |m|;
    }
  }

  lemma BothNumbered(n: string, i: nat, m: string, j: nat)
    requires i > 1 && j > 1
    ensures CheckpointName(n, i) == CheckpointName(m, j) <==> n == m && i == j
  {
    if CheckpointName(n, i) == CheckpointName(m, j) {
      HashSplitUnique(n, Decimal(i), m, Decimal(j));
      DecimalInjective(i, j);
    }
  }

  /** On `#`-free names the numbering never makes two uses collide. */
  lemma HashFreeInjective(n: string, i: nat, m: string, j: nat)
    requires i >= 1 && j >= 1 && HashFree(n) && HashFree(m)
    requires CheckpointName(n, i) == CheckpointName(m, j)
    ensures n == m && i == j
  {
    CollisionLaw(n, i, m, j);
    LastSeparator(m, '#', Decimal(j));
    LastSeparator(n, '#', Decimal(i));
    assert '#' in m + "#" + Decimal(j) && '#' in n + "#" + Decimal(i);
  }

  /** Two uses of one name, or of two names, are numbered apart. */
  lemma NumberedApart(n: string, i: nat, m: string, j: nat)
    requires HashFree(n) && HashFree(m) && i >= 1 && j >= 1 && (n != m || i != j)
    ensures CheckpointName(n, i) != CheckpointName(m, j)
  {
    if CheckpointName(n, i) == CheckpointName(m, j) {
      HashFreeInjective(n, i, m, j);
    }
  }

  function CountOf(counters: map<string, nat>, name: string): nat {
    if name in counters then counters[name] else 0
  }

  /** One use of a step name: the counters after it, and the checkpoint name it gets. */
  function NextName(counters: map<string, nat>, name: string): (map<string, nat>, string) {
    var count := CountOf(counters, name) + 1;
    (counters[name := count], CheckpointName(name, count))
  }

  /** The names a run hands out for a list of uses, in order. */
  function NamesOf(counters: map<string, nat>, uses: seq<string>): (r: seq<string>)
    ensures |r| == |uses|
    decreases |uses|
  {
    if uses == [] then []
    else [NextName(counters, uses[0]).1] + NamesOf(NextName(counters, uses[0]).0, uses[1..])
  }

  function Occurrences(uses: seq<string>, name: string): nat {
    if uses == [] then 0 else (if uses[0] == name then 1 else 0) + Occurrences(uses[1..], name)
  }

  lemma CountAfterNext(counters: map<string, nat>, used: string, name: string)
    ensures CountOf(NextName(counters, used).0, name) == CountOf(counters, name) + if used == name then 1 else 0
  {
  }

  lemma OccurrencesFrom(uses: seq<string>, k: nat, name: string)
    requires 0 < k <= |uses|
    ensures Occurrences(uses[..k], name) == (if uses[0] == name then 1 else 0) + Occurrences(uses[1..][..k - 1], name)
  {
    assert uses[1..][..k - 1] == uses[..k][1..];
  }

  /** The k-th use is numbered by how often its name occurred up to and including it. */
  lemma {:induction false} NamesOfAt(counters: map<string, nat>, uses: seq<string>, k: nat)
    requires k < |uses|
    ensures NamesOf(counters, uses)[k]
         == CheckpointName(uses[k], CountOf(counters, uses[k]) + Occurrences(uses[..k], uses[k]) + 1)
    decreases k
  {
    if k > 0 {
      var c := NextName(counters, uses[0]).0;
      NamesOfAt(c, uses[1..], k - 1);
      OccurrencesFrom(uses, k, uses[k]);
      CountAfterNext(counters, uses[0], uses[k]);
      assert NamesOf(counters, uses)[k] == NamesOf(c, uses[1..])[k - 1];
    }
  }

  lemma {:induction false} OccurrencesExtend(uses: seq<string>, more: seq<string>, name: string)
    ensures Occurrences(uses + more, name) == Occurrences(uses, name) + Occurrences(more, name)
  {
    if uses == [] {
      assert uses + more == more;
    } else {
      assert (uses + more)[1..] == uses[1..] + more;
      OccurrencesExtend(uses[1..], more, name);
    }
  }

  /** A run of `#`-free names gets pairwise different checkpoint names. */
  lemma RunNamesDistinct(counters: map<string, nat>, uses: seq<string>, i: nat, j: nat)
    requires i < j < |uses|
    requires HashFree(uses[i]) && HashFree(uses[j])
    ensures NamesOf(counters, uses)[i] != NamesOf(counters, uses)[j]
  {
    var a := CountOf(counters, uses[i]) + Occurrences(uses[..i], uses[i]) + 1;
    var b := CountOf(counters, uses[j]) + Occurrences(uses[..j], uses[j]) + 1;
    NamesOfAt(counters, uses, i);
    NamesOfAt(counters, uses, j);
    if uses[i] == uses[j] {
      LaterUseCountsMore(uses, i, j);
    }
    NumberedApart(uses[i], a, uses[j], b);
  }

  lemma LaterUseCountsMore(uses: seq<string>, i: nat, j: nat)
    requires i < j < |uses| && uses[i] == uses[j]
    ensures Occurrences(uses[..i], uses[i]) < Occurrences(uses[..j], uses[j])
  {
    assert uses[..j] == uses[..i] + uses[i..j];
    OccurrencesExtend(uses[..i], uses[i..j], uses[i]);
    assert uses[i..j][0] == uses[i];
  }

  /** Without the `#` restriction distinctness fails: the second `a` and a step named `a#2`. */
  lemma HashNamesCollide()
    ensures NamesOf(map[], ["a", "a", "a#2"])[1] == NamesOf(map[], ["a", "a", "a#2"])[2]
  {
    var uses := ["a", "a", "a#2"];
    NamesOfAt(map[], uses, 1);
    NamesOfAt(map[], uses, 2);
    assert uses[..1] == ["a"] && uses[..2] == ["a", "a"];
    assert Occurrences(["a"], "a") == 1 + Occurrences([], "a");
    assert Occurrences(["a", "a"], "a#2") == Occurrences(["a"], "a#2") == 0;
    assert Decimal(2) == "2";
  }

  // ----- Java keys -----

  datatype JavaUse = JavaStep(name: string) | JavaSleep | JavaAwait(event: string)

  /** The Java key: a kind prefix, the run-wide counter, and for steps and waits the name. */
  function JavaKey(u: JavaUse, counter: nat): string {
    match u
    case JavaStep(name) => "step#" + (Decimal(counter) + "-" + name)
    case JavaSleep => "sleep#" + Decimal(counter)
    case JavaAwait(event) => "await#" + (Decimal(counter) + "-" + event)
  }

  lemma DashSplitUnique(d: string, n: string, e: string, m: string)
    requires d + "-" + n == e + "-" + m
    requires '-' !in d && '-' !in e
    ensures d == e && n == m
  {
    FirstSeparator(d, '-', n);
    FirstSeparator(e, '-', m);
    PartsEqual(d, '-', n, e, m);
  }

  /** The three kinds of Java key start differently. */
  lemma JavaKindsDiffer(u: JavaUse, i: nat, v: JavaUse, j: nat)
    requires JavaKey(u, i) == JavaKey(v, j)
    ensures (u.JavaStep? <==> v.JavaStep?) && (u.JavaSleep? <==> v.JavaSleep?)
  {
    assert JavaKey(u, i)[0] == if u.JavaAwait? then 'a' else 's';
    assert JavaKey(v, j)[0] == if v.JavaAwait? then 'a' else 's';
    assert JavaKey(u, i)[1] == if u.JavaAwait? then 'w' else if u.JavaStep? then 't' else 'l';
    assert JavaKey(v, j)[1] == if v.JavaAwait? then 'w' else if v.JavaStep? then 't' else 'l';
  }

  /** Java keys are unique: the key determines kind, counter and name, so two uses in one run
      (whose counters differ) never share a key, whatever characters the names contain. */
  lemma JavaKeyInjective(u: JavaUse, i: nat, v: JavaUse, j: nat)
    requires JavaKey(u, i) == JavaKey(v, j)
    ensures u == v && i == j
  {
    JavaKindsDiffer(u, i, v, j);
    if u.JavaStep? {
      JavaTail("step#", Decimal(i) + "-" + u.name, Decimal(j) + "-" + v.name);
      DashSplitUnique(Decimal(i), u.name, Decimal(j), v.name);
    } else if u.JavaSleep? {
      JavaTail("sleep#", Decimal(i), Decimal(j));
    } else {
      JavaTail("await#", Decimal(i) + "-" + u.event, Decimal(j) + "-" + v.event);
      DashSplitUnique(Decimal(i), u.event, Decimal(j), v.event);
    }
    DecimalInjective(i, j);
  }

  lemma JavaTail(p: string, a: string, b: string)
    requires p + a == p + b
    ensures a == b
  {
    assert (p + a)[|p|..] == a && (p + b)[|p|..] == b;
  }
}
