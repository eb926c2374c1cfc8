/** Fold paths are texts: which documents give every container a path of its own, so that a click
    folds just that one. */
module FoldPaths {
  import opened JsonViewer
  import Names

  // ----- paths as lists of segments -----

  datatype Segment = Name(key: string) | Index(n: nat)

  function SegmentText(s: Segment): string {
    match s
    case Name(key) => "." + key
    case Index(n) => "[" + Names.Decimal(n) + "]"
  }

  function PathText(p: seq<Segment>): string {
    if p == [] then "" else SegmentText(p[0]) + PathText(p[1..])
  }

  ghost predicate NamesIn(keys: iset<string>, p: seq<Segment>) {
    forall i | 0 <= i < |p| && p[i].Name? :: p[i].key in keys
  }

  /** The keys are distinct within each object, and all are among the given ones. */
  ghost predicate KeysAmong(d: Json, keys: iset<string>)
    decreases d, Count(d) + 1
  {
    (d.Obj? ==> FieldsAmong(d.fields, keys)) && KidsKeysAmong(d, keys, 0)
  }

  ghost predicate FieldsAmong(fields: seq<Field>, keys: iset<string>) {
    && (forall j | 0 <= j < |fields| :: fields[j].key in keys)
    && forall j, l | 0 <= j < l < |fields| :: fields[j].key != fields[l].key
  }

  ghost predicate KidsKeysAmong(d: Json, keys: iset<string>, k: nat)
    requires k <= Count(d)
    decreases d, Count(d) - k
  {
    k == Count(d) || (KeysAmong(Kid(d, k), keys) && KidsKeysAmong(d, keys, k + 1))
  }

  /** One text read in two ways that part at two different keys. */
  ghost predicate Clash(keys: iset<string>, a: string, p: seq<Segment>, b: string, q: seq<Segment>) {
    a in keys && b in keys && a != b && NamesIn(keys, p) && NamesIn(keys, q) && a + PathText(p) == b + PathText(q)
  }

  ghost predicate Ambiguous(keys: iset<string>) {
    exists a, p, b, q :: Clash(keys, a, p, b, q)
  }

  ghost predicate DistinctPaths(s: seq<string>) {
    forall i, j | 0 <= i < j < |s| :: s[i] != s[j]
  }

  predicate IsSeparator(c: char) {
    c == '.' || c == '['
  }

  predicate StartsSegment(s: string) {
    s != "" ==> IsSeparator(s[0])
  }

  lemma PathStarts(p: seq<Segment>)
    ensures StartsSegment(PathText(p))
  {
  }

  /** The segment a kid adds. */
  function KidSegment(d: Json, k: nat): Segment
    requires k < Count(d)
  {
    if d.Arr? then Index(k) else Name(d.fields[k].key)
  }

  lemma KidPathText(d: Json, path: string, k: nat)
    requires k < Count(d)
    ensures KidPath(d, path, k) == path + SegmentText(KidSegment(d, k))
  {
    if d.Arr? {
      assert path + "[" + Names.Decimal(k) + "]" == path + ("[" + Names.Decimal(k) + "]");
    } else {
      assert path + "." + d.fields[k].key == path + ("." + d.fields[k].key);
    }
  }

  lemma PathCons(s: Segment, p: seq<Segment>, path: string)
    ensures PathText([s] + p) == SegmentText(s) + PathText(p)
    ensures path + SegmentText(s) + PathText(p) == path + PathText([s] + p)
  {
    assert ([s] + p)[1..] == p;
  }

  /** A collected path reads as a list of segments below its own. */
  lemma {:induction false} CollectReads(d: Json, path: string, keys: iset<string>, q: string) returns (p: seq<Segment>)
    requires KeysAmong(d, keys) && q in CollectFoldablePaths(d, path)
    ensures q == path + PathText(p) && NamesIn(keys, p)
    decreases d, Count(d) + 1
  {
    if q == path {
      p := [];
    } else {
      var k, r := CollectFromReads(d, path, keys, 0, q);
      p := [KidSegment(d, k)] + r;
      KidPathText(d, path, k);
      PathCons(KidSegment(d, k), r, path);
    }
  }

  lemma {:induction false} CollectFromReads(d: Json, path: string, keys: iset<string>, from: nat, q: string)
    returns (k: nat, p: seq<Segment>)
    requires from <= Count(d) && KidsKeysAmong(d, keys, from) && q in CollectFrom(d, path, from)
    ensures from <= k < Count(d) && q == KidPath(d, path, k) + PathText(p) && NamesIn(keys, p)
    decreases d, Count(d) - from
  {
    if q in CollectFoldablePaths(Kid(d, from), KidPath(d, path, from)) {
      k := from;
      p := CollectReads(Kid(d, from), KidPath(d, path, from), keys, q);
    } else {
      k, p := CollectFromReads(d, path, keys, from + 1, q);
    }
  }

  // ----- without two readings, paths are distinct -----

  /** Where the separators of two readings of one path stand. */
  lemma SameSegment(q: string, at: nat, a: string, b: string)
    requires at + |a| <= |q| && q[at..at + |a|] == a && at + |b| <= |q| && q[at..at + |b|] == b
    requires at + |a| < |q| ==> q[at + |a|] !in b
    requires at + |b| < |q| ==> q[at + |b|] !in a
    ensures a == b
  {
  }

  lemma NoBracketInDecimal(k: nat)
    ensures ']' !in Names.Decimal(k)
  {
    var s := Names.Decimal(k);
    forall i | 0 <= i < |s| ensures s[i] != ']' {
      assert s[i] in Names.DIGITS;
    }
  }

  /** Two indices never read the same. */
  lemma IndexApart(k: nat, l: nat, x: string, y: string)
    requires Names.Decimal(k) + "]" + x == Names.Decimal(l) + "]" + y
    ensures k == l
  {
    var a, b, q := Names.Decimal(k), Names.Decimal(l), Names.Decimal(k) + "]" + x;
    assert q[0..|a|] == a && q[|a|] == ']';
    assert q[0..|b|] == b && q[|b|] == ']';
    NoBracketInDecimal(k);
    NoBracketInDecimal(l);
    SameSegment(q, 0, a, b);
    Names.DecimalInjective(k, l);
  }

  lemma DropPrefix(path: string, x: string, y: string)
    requires path + x == path + y
    ensures x == y
  {
    assert (path + x)[|path|..] == x && (path + y)[|path|..] == y;
  }

  lemma Shift(path: string, c: string, a: string, t: string)
    ensures path + (c + a) + t == (path + c) + (a + t)
  {
  }

  /** Behind a common path and sign, different texts stay different. */
  lemma ShiftApart(path: string, c: string, a: string, t: string, b: string, u: string)
    requires a + t != b + u
    ensures path + (c + a) + t != path + (c + b) + u
  {
    Shift(path, c, a, t);
    Shift(path, c, b, u);
    if (path + c) + (a + t) == (path + c) + (b + u) {
      DropPrefix(path + c, a + t, b + u);
    }
  }

  lemma ItemsApart(path: string, k: nat, l: nat, x: string, y: string)
    requires k != l
    ensures path + SegmentText(Index(k)) + x != path + SegmentText(Index(l)) + y
  {
    var a, b := Names.Decimal(k) + "]", Names.Decimal(l) + "]";
    if a + x == b + y {
      IndexApart(k, l, x, y);
    }
    ShiftApart(path, "[", a, x, b, y);
    IndexShape(k);
    IndexShape(l);
  }

  lemma IndexShape(k: nat)
    ensures SegmentText(Index(k)) == "[" + (Names.Decimal(k) + "]")
  {
  }

  lemma FieldsApart(path: string, keys: iset<string>, a: string, p: seq<Segment>, b: string, q: seq<Segment>)
    requires !Ambiguous(keys) && a in keys && b in keys && a != b && NamesIn(keys, p) && NamesIn(keys, q)
    ensures path + SegmentText(Name(a)) + PathText(p) != path + SegmentText(Name(b)) + PathText(q)
  {
    assert !Clash(keys, a, p, b, q);
    ShiftApart(path, ".", a, PathText(p), b, PathText(q));
  }

  lemma KidsApart(d: Json, path: string, keys: iset<string>, k: nat, l: nat, p: seq<Segment>, q: seq<Segment>)
    requires !Ambiguous(keys) && KeysAmong(d, keys) && k < l < Count(d) && NamesIn(keys, p) && NamesIn(keys, q)
    ensures KidPath(d, path, k) + PathText(p) != KidPath(d, path, l) + PathText(q)
  {
    KidPathText(d, path, k);
    KidPathText(d, path, l);
    if d.Arr? {
      ItemsApart(path, k, l, PathText(p), PathText(q));
    } else {
      FieldsApart(path, keys, d.fields[k].key, p, d.fields[l].key, q);
    }
  }

  lemma DistinctAppend(a: seq<string>, b: seq<string>)
    requires DistinctPaths(a) && DistinctPaths(b) && forall q | q in a :: q !in b
    ensures DistinctPaths(a + b)
  {
    forall i, j | 0 <= i < j < |a + b| ensures (a + b)[i] != (a + b)[j] {
      if i < |a| <= j {
        assert a[i] in a && b[j - |a|] in b;
      }
    }
  }

  lemma KidsLonger(d: Json, path: string, keys: iset<string>)
    requires KeysAmong(d, keys)
    ensures path !in CollectFrom(d, path, 0)
  {
    if path in CollectFrom(d, path, 0) {
      var k, p := CollectFromReads(d, path, keys, 0, path);
      KidPathText(d, path, k);
    }
  }

  lemma {:induction false} UnambiguousDistinct(d: Json, path: string, keys: iset<string>)
    requires !Ambiguous(keys) && KeysAmong(d, keys)
    ensures DistinctPaths(CollectFoldablePaths(d, path))
    decreases d, Count(d) + 1
  {
    if Count(d) > 0 {
      FromDistinct(d, path, keys, 0);
      KidsLonger(d, path, keys);
      DistinctAppend([path], CollectFrom(d, path, 0));
    }
  }

  lemma {:induction false} FromDistinct(d: Json, path: string, keys: iset<string>, k: nat)
    requires k <= Count(d) && !Ambiguous(keys) && KeysAmong(d, keys) && KidsKeysAmong(d, keys, k)
    ensures DistinctPaths(CollectFrom(d, path, k))
    decreases d, Count(d) - k
  {
    if k < Count(d) {
      var first, rest := CollectFoldablePaths(Kid(d, k), KidPath(d, path, k)), CollectFrom(d, path, k + 1);
      UnambiguousDistinct(Kid(d, k), KidPath(d, path, k), keys);
      FromDistinct(d, path, keys, k + 1);
      forall q | q in first ensures q !in rest {
        var p := CollectReads(Kid(d, k), KidPath(d, path, k), keys, q);
        if q in rest {
          var l, r := CollectFromReads(d, path, keys, k + 1, q);
          KidsApart(d, path, keys, k, l, p, r);
        }
      }
      DistinctAppend(first, rest);
    }
  }

  // ----- two readings make two containers share a path -----

  /** An array with `k` nulls in front of `d`. */
  function NullsThen(k: nat, d: Json): Json {
    Arr(seq(k, i => Null) + [d])
  }

  lemma NullsThenKid(k: nat, d: Json, path: string)
    ensures Count(NullsThen(k, d)) == k + 1 && Kid(NullsThen(k, d), k) == d
    ensures KidPath(NullsThen(k, d), path, k) == path + "[" + Names.Decimal(k) + "]"
  {
  }

  /** A document that is nested along a path. */
  function Nest(p: seq<Segment>): Json {
    if p == [] then Arr([Null])
    else
      match p[0]
      case Name(key) => Obj([Field(key, Nest(p[1..]))])
      case Index(n) => NullsThen(n, Nest(p[1..]))
  }

  lemma NestKid(p: seq<Segment>, path: string) returns (k: nat)
    requires p != []
    ensures k < Count(Nest(p)) && Kid(Nest(p), k) == Nest(p[1..])
    ensures KidPath(Nest(p), path, k) == path + SegmentText(p[0])
  {
    k := if p[0].Index? then p[0].n else 0;
    if p[0].Index? {
      NullsThenKid(k, Nest(p[1..]), path);
    }
    assert KidSegment(Nest(p), k) == p[0];
    KidPathText(Nest(p), path, k);
  }

  lemma {:induction false} KidCollected(d: Json, path: string, k: nat, j: nat, q: string)
    requires k <= j < Count(d) && q in CollectFoldablePaths(Kid(d, j), KidPath(d, path, j))
    ensures q in CollectFrom(d, path, k)
    decreases j - k
  {
    if k < j {
      KidCollected(d, path, k + 1, j, q);
    }
  }

  lemma NestOneMore(p: seq<Segment>, path: string, q: string)
    requires p != [] && q in CollectFoldablePaths(Nest(p[1..]), path + SegmentText(p[0]))
    ensures q in CollectFoldablePaths(Nest(p), path)
  {
    var k := NestKid(p, path);
    KidCollected(Nest(p), path, 0, k, q);
  }

  lemma PathFrom(p: seq<Segment>, path: string)
    requires p != []
    ensures path + PathText(p) == (path + SegmentText(p[0])) + PathText(p[1..])
  {
  }

  lemma {:induction false} NestReaches(p: seq<Segment>, path: string)
    ensures path + PathText(p) in CollectFoldablePaths(Nest(p), path)
    decreases |p|
  {
    if p == [] {
      assert path + "" == path;
    } else {
      NestReaches(p[1..], path + SegmentText(p[0]));
      PathFrom(p, path);
      NestOneMore(p, path, path + PathText(p));
    }
  }

  lemma {:induction false} NullsKeys(d: Json, keys: iset<string>, k: nat)
    requires d.Arr? && k <= |d.items| && |d.items| > 0 && KeysAmong(d.items[|d.items| - 1], keys)
    requires forall j | 0 <= j < |d.items| - 1 :: d.items[j] == Null
    ensures KidsKeysAmong(d, keys, k)
    decreases |d.items| - k
  {
    if k < |d.items| {
      assert KidsKeysAmong(Null, keys, 0);
      NullsKeys(d, keys, k + 1);
    }
  }

  lemma {:induction false} NestKeys(p: seq<Segment>, keys: iset<string>)
    requires NamesIn(keys, p)
    ensures KeysAmong(Nest(p), keys)
    decreases |p|
  {
    if p == [] {
      assert KidsKeysAmong(Null, keys, 0);
      NullsKeys(Nest(p), keys, 0);
    } else {
      NestKeys(p[1..], keys);
      if p[0].Name? {
        assert KidsKeysAmong(Nest(p), keys, 1);
      } else {
        NullsKeys(Nest(p), keys, 0);
      }
    }
  }

  /** Two nested documents side by side. */
  function Twins(a: string, p: seq<Segment>, b: string, q: seq<Segment>): Json {
    Obj([Field(a, Nest(p)), Field(b, Nest(q))])
  }

  lemma TwinsKeys(keys: iset<string>, a: string, p: seq<Segment>, b: string, q: seq<Segment>)
    requires Clash(keys, a, p, b, q)
    ensures KeysAmong(Twins(a, p, b, q), keys)
  {
    var d := Twins(a, p, b, q);
    NestKeys(p, keys);
    NestKeys(q, keys);
    assert Kid(d, 0) == Nest(p) && Kid(d, 1) == Nest(q);
    assert KidsKeysAmong(d, keys, 2);
    assert KidsKeysAmong(d, keys, 1);
  }

  lemma TwiceIn(a: seq<string>, b: seq<string>, first: string, q: string)
    requires q in a && q in b
    ensures !DistinctPaths([first] + (a + b))
  {
    var i :| 0 <= i < |a| && a[i] == q;
    var j :| 0 <= j < |b| && b[j] == q;
    var s := [first] + (a + b);
    assert s[1 + i] == q && s[1 + |a| + j] == q;
  }

  /** What either twin reaches. */
  lemma TwinReaches(d: Json, k: nat, a: string, p: seq<Segment>)
    requires d.Obj? && k < Count(d) && d.fields[k] == Field(a, Nest(p))
    ensures ("$" + ".") + (a + PathText(p)) in CollectFoldablePaths(Kid(d, k), KidPath(d, "$", k))
  {
    KidPathText(d, "$", k);
    NestReaches(p, KidPath(d, "$", k));
    Shift("$", ".", a, PathText(p));
  }

  lemma TwinsCollide(a: string, p: seq<Segment>, b: string, q: seq<Segment>)
    requires a + PathText(p) == b + PathText(q)
    ensures !DistinctPaths(CollectFoldablePaths(Twins(a, p, b, q), "$"))
  {
    var d := Twins(a, p, b, q);
    var x := ("$" + ".") + (a + PathText(p));
    TwinReaches(d, 0, a, p);
    TwinReaches(d, 1, b, q);
    KidCollected(d, "$", 1, 1, x);
    TwiceIn(CollectFoldablePaths(Kid(d, 0), KidPath(d, "$", 0)), CollectFrom(d, "$", 1), "$", x);
  }

  /** The exact condition on a set of keys: in all documents with these keys no two containers share
      a fold path, if and only if no text reads in two ways that part at two of the keys. */
  lemma PathsDistinctForKeys(keys: iset<string>)
    ensures (forall d | KeysAmong(d, keys) :: DistinctPaths(CollectFoldablePaths(d, "$"))) <==> !Ambiguous(keys)
  {
    if Ambiguous(keys) {
      var a, p, b, q :| Clash(keys, a, p, b, q);
      TwinsKeys(keys, a, p, b, q);
      TwinsCollide(a, p, b, q);
    } else {
      forall d | KeysAmong(d, keys) ensures DistinctPaths(CollectFoldablePaths(d, "$")) {
        UnambiguousDistinct(d, "$", keys);
      }
    }
  }

  // ----- clean keys -----

  predicate CleanKey(key: string) {
    forall i | 0 <= i < |key| :: !IsSeparator(key[i])
  }

  ghost function CleanSet(): iset<string> {
    iset key: string | CleanKey(key)
  }

  lemma CleanApart(a: string, b: string, x: string, y: string)
    requires CleanKey(a) && CleanKey(b) && StartsSegment(x) && StartsSegment(y) && a + x == b + y
    ensures a == b
  {
    var q := a + x;
    assert q[0..|a|] == a && q[0..|b|] == b;
    assert x != "" ==> q[|a|] == x[0];
    assert y != "" ==> q[|b|] == y[0];
    SameSegment(q, 0, a, b);
  }

  /** When keys are clean every foldable path names one container, so a click folds just that one. */
  lemma PathsDistinct(d: Json, path: string)
    requires KeysAmong(d, CleanSet())
    ensures DistinctPaths(CollectFoldablePaths(d, path))
  {
    forall a, p, b, q ensures !Clash(CleanSet(), a, p, b, q) {
      if Clash(CleanSet(), a, p, b, q) {
        PathStarts(p);
        PathStarts(q);
        CleanApart(a, b, PathText(p), PathText(q));
      }
    }
    UnambiguousDistinct(d, path, CleanSet());
  }

  /** Distinct keys alone are not enough: a dot in a key makes two containers share a path. */
  lemma DottedKeysCollide()
    ensures var inner := Arr([Null]);
            var d := Obj([Field("a", Obj([Field("b", inner)])), Field("a.b", inner)]);
            CollectFoldablePaths(d, "$") == ["$", "$.a", "$.a.b", "$.a.b"]
  {
    var inner := Arr([Null]);
    var a := Obj([Field("b", inner)]);
    var d := Obj([Field("a", a), Field("a.b", inner)]);
    assert forall p :: CollectFrom(inner, p, 1) == [];
    assert CollectFoldablePaths(Null, "$.a.b[0]") == [];
    assert KidPath(a, "$.a", 0) == "$.a.b" && KidPath(d, "$", 0) == "$.a" && KidPath(d, "$", 1) == "$.a.b";
    assert CollectFrom(inner, "$.a.b", 0) == [] + CollectFrom(inner, "$.a.b", 1);
    assert CollectFoldablePaths(inner, "$.a.b") == ["$.a.b"];
    assert CollectFrom(a, "$.a", 1) == [];
    assert CollectFrom(a, "$.a", 0) == ["$.a.b"] + [];
    assert CollectFoldablePaths(a, "$.a") == ["$.a", "$.a.b"];
    assert CollectFrom(d, "$", 2) == [];
    assert CollectFrom(d, "$", 1) == ["$.a.b"] + [];
    assert CollectFrom(d, "$", 0) == ["$.a", "$.a.b"] + ["$.a.b"];
  }

  // ----- one unclean key -----

  /** Where the first separator stands; the length when there is none. */
  function NextSeparator(s: string): (n: nat)
    ensures n <= |s| && (n < |s| ==> IsSeparator(s[n]))
    ensures forall i | 0 <= i < n :: !IsSeparator(s[i])
  {
    if s == "" || IsSeparator(s[0]) then 0 else 1 + NextSeparator(s[1..])
  }

  /** A number as an array index is printed. */
  predicate IsDecimal(x: string) {
    && |x| > 0 && (forall i | 0 <= i < |x| :: x[i] in Names.DIGITS)
    && (|x| > 1 ==> x[0] != '0')
  }

  /** `[decimal]` */
  predicate IsIndex(u: string) {
    |u| >= 3 && u[0] == '[' && u[|u| - 1] == ']' && IsDecimal(u[1..|u| - 1])
  }

  /** The length of the segment a text starts with: up to the next separator. */
  function SegmentEnd(t: string): (e: nat)
    requires t != ""
    ensures 1 <= e <= |t|
  {
    1 + NextSeparator(t[1..])
  }

  /** The text is a list of segments `.name` and `[decimal]`. */
  predicate ReadsAsPath(t: string)
    decreases |t|
  {
    t == "" || (var e := SegmentEnd(t); (t[0] == '.' || IsIndex(t[..e])) && ReadsAsPath(t[e..]))
  }

  /** From its first separator on, the key reads as a path. */
  predicate PathTail(key: string) {
    NextSeparator(key) < |key| && ReadsAsPath(key[NextSeparator(key)..])
  }

  function ValueOf(x: string): nat
    requires forall i | 0 <= i < |x| :: x[i] in Names.DIGITS
  {
    if x == "" then 0 else 10 * ValueOf(x[..|x| - 1]) + DigitOf(x[|x| - 1])
  }

  function DigitOf(c: char): (n: nat)
    requires c in Names.DIGITS
    ensures n < 10 && Names.DIGITS[n] == c
  {
    var n: nat :| n < |Names.DIGITS| && Names.DIGITS[n] == c;
    n
  }

  lemma DigitIsDecimal(x: string)
    requires |x| == 1 && x[0] in Names.DIGITS
    ensures Names.Decimal(ValueOf(x)) == x && (x[0] != '0' ==> ValueOf(x) > 0)
  {
    assert x[..0] == "" && ValueOf("") == 0 && x == [x[0]];
  }

  lemma {:induction false} DecimalOfValue(x: string)
    requires IsDecimal(x)
    ensures Names.Decimal(ValueOf(x)) == x
    ensures |x| > 1 || x[0] != '0' ==> ValueOf(x) > 0
    decreases |x|
  {
    if |x| == 1 {
      DigitIsDecimal(x);
    } else {
      ShorterDecimal(x);
      DecimalOfValue(x[..|x| - 1]);
      LongerDecimal(x, x[..|x| - 1], x[|x| - 1]);
    }
  }

  lemma ShorterDecimal(x: string)
    requires IsDecimal(x) && |x| > 1
    ensures IsDecimal(x[..|x| - 1]) && x[..|x| - 1][0] != '0'
  {
  }

  predicate AllDigits(x: string) {
    forall i | 0 <= i < |x| :: x[i] in Names.DIGITS
  }

  lemma ValueAppend(y: string, c: char)
    requires AllDigits(y) && AllDigits(y + [c]) && c in Names.DIGITS
    ensures ValueOf(y + [c]) == 10 * ValueOf(y) + DigitOf(c)
  {
    assert (y + [c])[..|y|] == y;
  }

  lemma LongerDecimal(x: string, y: string, c: char)
    requires x == y + [c] && AllDigits(x) && AllDigits(y) && ValueOf(y) > 0 && Names.Decimal(ValueOf(y)) == y
    ensures Names.Decimal(ValueOf(x)) == x && ValueOf(x) > 0
  {
    assert x[|x| - 1] == c;
    ValueAppend(y, c);
    LastDigit(ValueOf(y), c);
  }

  lemma LastDigit(n: nat, c: char)
    requires n > 0 && c in Names.DIGITS
    ensures Names.Decimal(10 * n + DigitOf(c)) == Names.Decimal(n) + [c]
  {
    var m := 10 * n + DigitOf(c);
    assert m / 10 == n && m % 10 == DigitOf(c);
  }

  /** The index an array segment names. */
  function IndexOf(u: string): nat
    requires IsIndex(u)
  {
    ValueOf(u[1..|u| - 1])
  }

  lemma IndexText(u: string)
    requires IsIndex(u)
    ensures u == "[" + Names.Decimal(IndexOf(u)) + "]"
  {
    DecimalOfValue(u[1..|u| - 1]);
    assert u == [u[0]] + u[1..|u| - 1] + [u[|u| - 1]];
  }

  /** The segment that a single one's text stands for. */
  function SegmentOf(u: string): Segment
    requires u != "" && (u[0] == '.' || IsIndex(u))
  {
    if u[0] == '.' then Name(u[1..]) else Index(IndexOf(u))
  }

  lemma SegmentOfText(u: string)
    requires u != "" && (u[0] == '.' || IsIndex(u))
    ensures SegmentText(SegmentOf(u)) == u
  {
    if u[0] == '.' {
      assert u == "." + u[1..];
    } else {
      IndexText(u);
    }
  }

  /** The segments a text reads as. */
  function Segments(t: string): (p: seq<Segment>)
    requires ReadsAsPath(t)
    decreases |t|
  {
    if t == "" then []
    else
      var e := SegmentEnd(t);
      [SegmentOf(t[..e])] + Segments(t[e..])
  }

  lemma CleanSegment(t: string)
    requires t != ""
    ensures CleanKey(t[..SegmentEnd(t)][1..])
  {
    assert t[..SegmentEnd(t)][1..] == t[1..][..SegmentEnd(t) - 1];
  }

  lemma FirstText(t: string)
    requires ReadsAsPath(t) && t != ""
    ensures var u := t[..SegmentEnd(t)];
            && SegmentText(Segments(t)[0]) == u && Segments(t)[1..] == Segments(t[SegmentEnd(t)..])
            && (Segments(t)[0].Name? ==> CleanKey(Segments(t)[0].key))
  {
    SegmentOfText(t[..SegmentEnd(t)]);
    CleanSegment(t);
  }

  lemma SegmentsCons(u: string, p: seq<Segment>, rest: seq<Segment>)
    requires p != [] && p[1..] == rest && SegmentText(p[0]) == u && (p[0].Name? ==> CleanKey(p[0].key))
    requires NamesIn(CleanSet(), rest)
    ensures PathText(p) == u + PathText(rest) && NamesIn(CleanSet(), p)
  {
    forall i | 0 <= i < |p| && p[i].Name? ensures p[i].key in CleanSet() {
      assert i > 0 ==> p[i] == rest[i - 1];
    }
  }

  lemma SegmentsOnce(t: string)
    requires ReadsAsPath(t) && t != "" && ReadsAsPath(t[SegmentEnd(t)..])
    requires PathText(Segments(t[SegmentEnd(t)..])) == t[SegmentEnd(t)..]
    requires NamesIn(CleanSet(), Segments(t[SegmentEnd(t)..]))
    ensures PathText(Segments(t)) == t && NamesIn(CleanSet(), Segments(t))
  {
    FirstText(t);
    SegmentsCons(t[..SegmentEnd(t)], Segments(t), Segments(t[SegmentEnd(t)..]));
  }

  lemma {:induction false} SegmentsText(t: string)
    requires ReadsAsPath(t)
    ensures PathText(Segments(t)) == t && NamesIn(CleanSet(), Segments(t))
    decreases |t|
  {
    if t != "" {
      SegmentsText(t[SegmentEnd(t)..]);
      SegmentsOnce(t);
    }
  }

  /** All clean keys and the given one. */
  ghost function OneUnclean(key: string): iset<string> {
    iset k: string | CleanKey(k) || k == key
  }

  lemma CleanAmong(key: string, p: seq<Segment>)
    requires NamesIn(CleanSet(), p)
    ensures NamesIn(OneUnclean(key), p)
  {
  }

  lemma CutClashes(key: string, c: string, p: seq<Segment>)
    requires key == c + PathText(p) && key != c && CleanKey(c) && NamesIn(CleanSet(), p)
    ensures Ambiguous(OneUnclean(key))
  {
    CleanAmong(key, p);
    assert key + PathText([]) == key;
    assert Clash(OneUnclean(key), c, p, key, []);
  }

  lemma TailClashes(key: string)
    requires PathTail(key)
    ensures Ambiguous(OneUnclean(key))
  {
    var n := NextSeparator(key);
    SegmentsText(key[n..]);
    assert key == key[..n] + key[n..];
    CutClashes(key, key[..n], Segments(key[n..]));
  }

  /** The text starts with a bracket that is no index. */
  predicate Bad(u: string) {
    u != "" && u[0] == '[' && !IsIndex(u[..SegmentEnd(u)])
  }

  predicate BadAt(s: string, i: int) {
    0 <= i < |s| && Bad(s[i..])
  }

  lemma {:induction false} SeparatorBefore(x: string, y: string)
    requires StartsSegment(y)
    ensures NextSeparator(x + y) == NextSeparator(x)
    decreases |x|
  {
    if x == "" {
      assert x + y == y;
    } else if !IsSeparator(x[0]) {
      assert (x + y)[1..] == x[1..] + y;
      SeparatorBefore(x[1..], y);
    }
  }

  lemma BadBefore(u: string, y: string)
    requires u != "" && StartsSegment(y)
    ensures Bad(u + y) <==> Bad(u)
  {
    assert (u + y)[1..] == u[1..] + y;
    SeparatorBefore(u[1..], y);
    assert (u + y)[..SegmentEnd(u)] == u[..SegmentEnd(u)];
  }

  /** What follows a complete segment does not change how what precedes reads. */
  lemma BadConcat(x: string, y: string, i: nat)
    requires StartsSegment(y)
    ensures i < |x| ==> (BadAt(x + y, i) <==> BadAt(x, i))
    ensures BadAt(x + y, |x| + i) <==> BadAt(y, i)
  {
    if i < |x| {
      assert (x + y)[i..] == x[i..] + y;
      BadBefore(x[i..], y);
    }
    if i < |y| {
      assert (x + y)[|x| + i..] == y[i..];
    }
  }

  lemma RestStartsSegment(t: string)
    requires t != ""
    ensures StartsSegment(t[SegmentEnd(t)..])
  {
    var n := NextSeparator(t[1..]);
    if n < |t[1..]| {
      assert t[SegmentEnd(t)..][0] == t[1..][n];
    }
  }

  /** A good first segment holds no bad bracket. */
  lemma GoodSegment(u: string, i: nat)
    requires u != "" && SegmentEnd(u) == |u| && !Bad(u) && i < |u|
    ensures !BadAt(u, i)
  {
    assert u[0..] == u;
    if i > 0 {
      assert u[i] == u[1..][i - 1] && u[i..][0] == u[i];
    }
  }

  lemma FirstSegment(t: string)
    requires t != ""
    ensures var u := t[..SegmentEnd(t)]; SegmentEnd(u) == |u| && u != "" && (Bad(t) <==> Bad(u))
  {
    var e := SegmentEnd(t);
    var u := t[..e];
    assert u[1..] == t[1..][..e - 1];
    NoSeparators(u[1..]);
    assert u[..|u|] == u;
  }

  /** A text of segments that is no path has a first bad bracket. */
  lemma {:induction false} FirstBad(t: string) returns (pos: nat)
    requires StartsSegment(t) && !ReadsAsPath(t)
    ensures BadAt(t, pos) && forall i | 0 <= i < pos :: !BadAt(t, i)
    decreases |t|
  {
    assert t[0..] == t;
    if Bad(t) {
      pos := 0;
    } else {
      RestStartsSegment(t);
      var p := FirstBad(t[SegmentEnd(t)..]);
      pos := SegmentEnd(t) + p;
      BadBehind(t, p);
    }
  }

  lemma BadBehindAt(u: string, v: string, p: nat, i: nat)
    requires u != "" && SegmentEnd(u) == |u| && !Bad(u) && StartsSegment(v) && i < |u| + p
    requires forall j | 0 <= j < p :: !BadAt(v, j)
    ensures !BadAt(u + v, i)
  {
    if i < |u| {
      BadConcat(u, v, i);
      GoodSegment(u, i);
    } else {
      BadConcat(u, v, i - |u|);
    }
  }

  lemma BadBehind(t: string, p: nat)
    requires t != "" && !Bad(t) && StartsSegment(t[SegmentEnd(t)..])
    requires BadAt(t[SegmentEnd(t)..], p) && forall j | 0 <= j < p :: !BadAt(t[SegmentEnd(t)..], j)
    ensures BadAt(t, SegmentEnd(t) + p) && forall i | 0 <= i < SegmentEnd(t) + p :: !BadAt(t, i)
  {
    var u, v := t[..SegmentEnd(t)], t[SegmentEnd(t)..];
    assert t == u + v;
    FirstSegment(t);
    BadConcat(u, v, p);
    forall i | 0 <= i < |u| + p ensures !BadAt(u + v, i) {
      BadBehindAt(u, v, p, i);
    }
  }

  /** Bad brackets come after position `pos` only. */
  ghost predicate Later(r: string, pos: nat) {
    StartsSegment(r) && forall i | 0 <= i < |r| && BadAt(r, i) :: i > pos
  }

  lemma LaterJoin(x: string, r: string, pos: nat)
    requires Later(x, pos) && Later(r, pos)
    ensures Later(x + r, pos)
  {
    forall i | 0 <= i < |x + r| && BadAt(x + r, i) ensures i > pos {
      if i < |x| {
        BadConcat(x, r, i);
      } else {
        BadConcat(x, r, i - |x|);
      }
    }
  }

  lemma {:induction false} DecimalCanonical(n: nat)
    ensures IsDecimal(Names.Decimal(n))
    ensures n > 0 ==> Names.Decimal(n)[0] != '0'
  {
    if n >= 10 {
      DecimalCanonical(n / 10);
    }
  }

  lemma NoSeparators(s: string)
    requires forall i | 0 <= i < |s| :: !IsSeparator(s[i])
    ensures NextSeparator(s) == |s|
  {
  }

  lemma IndexLater(k: nat, pos: nat)
    ensures Later("[" + Names.Decimal(k) + "]", pos)
  {
    var x := Names.Decimal(k);
    var u := "[" + x + "]";
    DecimalCanonical(k);
    forall i | 0 <= i < |x + "]"| ensures !IsSeparator((x + "]")[i]) {
      assert i < |x| ==> x[i] in Names.DIGITS;
    }
    NoSeparators(x + "]");
    assert u[1..] == x + "]" && u[1..|u| - 1] == x && u[..|u|] == u;
    forall i | 0 <= i < |u| ensures !BadAt(u, i) {
      GoodSegment(u, i);
    }
  }

  lemma CleanLater(key: string, pos: nat)
    requires CleanKey(key)
    ensures Later("." + key, pos)
  {
    var u := "." + key;
    assert u[1..] == key;
    NoSeparators(key);
    forall i | 0 <= i < |u| ensures !BadAt(u, i) {
      GoodSegment(u, i);
    }
  }

  lemma LaterBehind(x: string, t: string, pos: nat)
    requires Later(x, pos) && x != "" && StartsSegment(t) && forall j | 0 <= j < pos :: !BadAt(t, j)
    ensures Later(x + t, pos)
  {
    forall i | 0 <= i < |x + t| && BadAt(x + t, i) ensures i > pos {
      if i < |x| {
        BadConcat(x, t, i);
      } else {
        BadConcat(x, t, i - |x|);
      }
    }
  }

  /** The key's own bad bracket stands later than the first one of its tail. */
  lemma KeyLater(key: string, pos: nat)
    requires BadKey(key, pos)
    ensures Later("." + key, pos)
  {
    var n := NextSeparator(key);
    CleanLater(key[..n], pos);
    LaterBehind("." + key[..n], key[n..], pos);
    assert "." + key == ("." + key[..n]) + key[n..];
  }

  /** The key is not clean, and `pos` is the first bad bracket behind its first separator. */
  ghost predicate BadKey(key: string, pos: nat) {
    var n := NextSeparator(key);
    n < |key| && BadAt(key[n..], pos) && forall i | 0 <= i < pos :: !BadAt(key[n..], i)
  }

  lemma SegmentLater(s: Segment, key: string, pos: nat)
    requires BadKey(key, pos) && NamesIn(OneUnclean(key), [s])
    ensures Later(SegmentText(s), pos)
  {
    match s
    case Index(n) => IndexLater(n, pos);
    case Name(k) =>
      assert [s][0].key in OneUnclean(key);
      if k == key {
        KeyLater(key, pos);
      } else {
        CleanLater(k, pos);
      }
  }

  /** In a text of such segments bad brackets come late only. */
  lemma {:induction false} PathLater(p: seq<Segment>, key: string, pos: nat)
    requires BadKey(key, pos) && NamesIn(OneUnclean(key), p)
    ensures Later(PathText(p), pos)
  {
    if p != [] {
      SegmentLater(p[0], key, pos);
      PathLater(p[1..], key, pos);
      LaterJoin(SegmentText(p[0]), PathText(p[1..]), pos);
    }
  }

  /** A clean key never reads on as the bad one does. */
  lemma BadAndCleanApart(key: string, clean: string, pos: nat, r: string, r': string)
    requires BadKey(key, pos) && CleanKey(clean) && Later(r, pos) && Later(r', pos)
    ensures key + r != clean + r'
  {
    if key + r == clean + r' {
      var n := NextSeparator(key);
      var c, t := key[..n], key[n..];
      assert key + r == c + (t + r) && (t + r)[0] == t[0];
      CleanApart(c, clean, t + r, r');
      DropPrefix(c, t + r, r');
      BadConcat(t, r, pos);
    }
  }

  lemma BadKeyUnambiguous(key: string, pos: nat)
    requires BadKey(key, pos)
    ensures !Ambiguous(OneUnclean(key))
  {
    forall a, p, b, q ensures !Clash(OneUnclean(key), a, p, b, q) {
      if Clash(OneUnclean(key), a, p, b, q) {
        PathLater(p, key, pos);
        PathLater(q, key, pos);
        if a == key {
          BadAndCleanApart(key, b, pos, PathText(p), PathText(q));
        } else if b == key {
          BadAndCleanApart(key, a, pos, PathText(q), PathText(p));
        } else {
          CleanApart(a, b, PathText(p), PathText(q));
        }
      }
    }
  }

  lemma CleanUnambiguous(key: string)
    requires CleanKey(key)
    ensures !Ambiguous(OneUnclean(key))
  {
    forall a, p, b, q ensures !Clash(OneUnclean(key), a, p, b, q) {
      if Clash(OneUnclean(key), a, p, b, q) {
        PathStarts(p);
        PathStarts(q);
        CleanApart(a, b, PathText(p), PathText(q));
      }
    }
  }

  /** The exact condition on one key: in documents whose other keys are free of separators, no two
      containers ever share a fold path, if and only if the key does not read as a path from its
      first separator on. */
  lemma PathsDistinctExactly(key: string)
    ensures (forall d | KeysAmong(d, OneUnclean(key)) :: DistinctPaths(CollectFoldablePaths(d, "$"))) <==>
            !PathTail(key)
  {
    PathsDistinctForKeys(OneUnclean(key));
    if PathTail(key) {
      TailClashes(key);
    } else if NextSeparator(key) == |key| {
      CleanUnambiguous(key);
    } else {
      var pos := FirstBad(key[NextSeparator(key)..]);
      BadKeyUnambiguous(key, pos);
    }
  }

  /** Two keys that are harmless alone can meet: `{"a[": {"b": [null]}, "a[.b": [null]}`. */
  lemma TwoKeysMeet()
    ensures !PathTail("a[") && !PathTail("a[.b")
    ensures var d := Obj([Field("a[", Obj([Field("b", Arr([Null]))])), Field("a[.b", Arr([Null]))]);
            !DistinctPaths(CollectFoldablePaths(d, "$"))
  {
    NoTail("a[", "a", "[");
    NoTail("a[.b", "a", "[.b");
    assert "." + "b" == ".b" && "a[" + ".b" == "a[.b";
    TwinsMeet("b", "a[.b");
  }

  lemma TwinsMeet(name: string, key: string)
    requires key == "a[" + ("." + name)
    ensures var d := Obj([Field("a[", Obj([Field(name, Arr([Null]))])), Field(key, Arr([Null]))]);
            !DistinctPaths(CollectFoldablePaths(d, "$"))
  {
    var p := [Name(name)];
    assert p[1..] == [] && Nest([]) == Arr([Null]);
    assert PathText(p) == ("." + name) + "" == "." + name;
    assert key + PathText([]) == key;
    TwinsCollide("a[", p, key, []);
  }

  lemma NoTail(key: string, c: string, t: string)
    requires key == c + t && CleanKey(c) && t in {"[", "[.b"}
    ensures !PathTail(key)
  {
    SeparatorBefore(c, t);
    NoSeparators(c);
    assert NextSeparator(key) == |c| && key[|c|..] == t;
    assert t[1..] == "" || t[1..] == ".b";
    assert SegmentEnd(t) == 1 && t[..1] == "[";
  }
}
