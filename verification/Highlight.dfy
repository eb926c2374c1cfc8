/** Search highlighting: one greedy scan over the lower-cased text that cuts the original text into
    marked and unmarked parts. */
module Highlight {

  datatype Part = Part(text: string, isMatch: bool)

  // ----- matches -----

  predicate MatchAt(s: string, t: string, i: int) {
    0 <= i && i + |t| <= |s| && s[i..i + |t|] == t
  }

  /** Where `t` occurs in `s`: the table that every search below reads. */
  function Hits(s: string, t: string): seq<bool> {
    seq(|s|, i => MatchAt(s, t, i))
  }

  /** The first hit at or after `from`, or -1: `s.indexOf(t, from)` on the table of `t` in `s`. */
  function Next(hits: seq<bool>, from: nat): (r: int)
    ensures r == -1 || (from <= r < |hits| && hits[r])
    decreases |hits| - from
  {
    if from >= |hits| then -1
    else if hits[from] then from
    else Next(hits, from + 1)
  }

  lemma {:induction false} NextIsFirst(hits: seq<bool>, from: nat)
    ensures forall j | from <= j < |hits| && (Next(hits, from) == -1 || j < Next(hits, from)) :: !hits[j]
    decreases |hits| - from
  {
    if from < |hits| && !hits[from] {
      NextIsFirst(hits, from + 1);
    }
  }

  /** `s.slice(from, to)`, whose ends are clamped to the string. */
  function Slice(s: string, from: nat, to: nat): string
    requires from <= to
  {
    s[if from > |s| then |s| else from..if to > |s| then |s| else to]
  }

  // ----- the scan -----

  /** The parts for one match found at `index`: the text skipped, then the marked text. */
  function Found(text: string, last: nat, index: nat, n: nat): seq<Part>
    requires last <= index
  {
    (if index > last then [Part(Slice(text, last, index), false)] else [])
    + [Part(Slice(text, index, index + n), true)]
  }

  /** The parts still to be produced when everything before `last` has been handled: `hits` says
      where the lowered search occurs, `n` is the length of the search as typed. */
  function Scan(text: string, hits: seq<bool>, n: nat, last: nat): seq<Part>
    requires n > 0
    decreases |hits| - last
  {
    var index := Next(hits, last);
    if index == -1 then
      if last < |text| then [Part(text[last..], false)] else []
    else
      Found(text, last, index, n) + Scan(text, hits, n, index + n)
  }

  /** The whole answer, with its fallback for an empty list of parts. */
  function Split(text: string, lt: string, ls: string, n: nat): seq<Part>
    requires n > 0
  {
    var parts := Scan(text, Hits(lt, ls), n, 0);
    if |parts| > 0 then parts else [Part(text, false)]
  }

  /** splitBySearch.  A lowering may change lengths but does not erase a whole search. */
  method SplitBySearch(text: string, search: string, lower: string -> string) returns (r: seq<Part>)
    requires search != "" ==> lower(search) != ""
    ensures Text(r) == text
    ensures search == "" ==> r == [Part(text, false)]
    ensures search != "" ==> r == Split(text, lower(text), lower(search), |search|)
    ensures search != "" && |lower(text)| == |text| && |lower(search)| == |search| ==>
      LeftmostMarks(lower(text), lower(search), Starts(r, 0)) && MarksHaveLength(r, |search|)
  {
    if search == "" {
      return [Part(text, false)];
    }
    r := ScanText(text, Hits(lower(text), lower(search)), |search|);
    if |r| == 0 {
      r := [Part(text, false)];
    }
    SplitKeepsText(text, lower(text), lower(search), |search|);
    if |lower(text)| == |text| && |lower(search)| == |search| {
      SplitMarks(text, lower(text), lower(search));
    }
  }

  /** The parts pushed so far and the rest of the scan make up the whole. */
  ghost predicate Halfway(text: string, hits: seq<bool>, n: nat, last: nat, parts: seq<Part>, all: seq<Part>)
    requires n > 0
  {
    parts + Scan(text, hits, n, last) == all
  }

  lemma OneMatch(text: string, hits: seq<bool>, n: nat, last: nat, parts: seq<Part>, pushed: seq<Part>, all: seq<Part>)
    requires n > 0 && Next(hits, last) != -1
    requires Halfway(text, hits, n, last, parts, all) && pushed == parts + Found(text, last, Next(hits, last), n)
    ensures Halfway(text, hits, n, Next(hits, last) + n, pushed, all)
  {
    var index := Next(hits, last);
    Regroup(parts, Found(text, last, index, n), Scan(text, hits, n, index + n));
  }

  lemma Regroup(a: seq<Part>, b: seq<Part>, c: seq<Part>)
    ensures a + (b + c) == (a + b) + c
  {
  }

  lemma NoMatch(text: string, hits: seq<bool>, n: nat, last: nat, parts: seq<Part>)
    requires n > 0 && Next(hits, last) == -1
    ensures (if last < |text| then parts + [Part(text[last..], false)] else parts) == parts + Scan(text, hits, n, last)
  {
  }

  /** The two pushes of the loop body. */
  method Push(parts: seq<Part>, text: string, lastIndex: nat, index: nat, length: nat) returns (r: seq<Part>)
    requires lastIndex <= index
    ensures r == parts + Found(text, lastIndex, index, length)
  {
    r := parts;
    if index > lastIndex {
      r := r + [Part(Slice(text, lastIndex, index), false)];
    }
    r := r + [Part(Slice(text, index, index + length), true)];
  }

  /** Its loop, for a search that is not empty, over the hits of the lowered search. */
  method ScanText(text: string, hits: seq<bool>, length: nat) returns (r: seq<Part>)
    requires length > 0
    ensures r == Scan(text, hits, length, 0)
  {
    r := [];
    var lastIndex := 0;
    var index := Next(hits, 0);
    ghost var all := Scan(text, hits, length, 0);
    while index != -1
      invariant 0 <= lastIndex && index == Next(hits, lastIndex)
      invariant Halfway(text, hits, length, lastIndex, r, all)
      decreases if index == -1 then 0 else 1 + |hits| - lastIndex
    {
      var pushed := Push(r, text, lastIndex, index, length);
      OneMatch(text, hits, length, lastIndex, r, pushed, all);
      r := pushed;
      lastIndex := index + length;
      index := Next(hits, lastIndex);
    }
    NoMatch(text, hits, length, lastIndex, r);
    if lastIndex < |text| {
      r := r + [Part(text[lastIndex..], false)];
    }
  }

  // ----- nothing is lost -----

  function Text(parts: seq<Part>): string {
    if parts == [] then "" else parts[0].text + Text(parts[1..])
  }

  /** The positions where the marked parts start. */
  function Starts(parts: seq<Part>, at: nat): seq<nat> {
    if parts == [] then []
    else (if parts[0].isMatch then [at] else []) + Starts(parts[1..], at + |parts[0].text|)
  }

  ghost predicate MarksHaveLength(parts: seq<Part>, n: nat) {
    forall p | p in parts && p.isMatch :: |p.text| == n
  }

  lemma SlicesMeet(s: string, a: nat, b: nat, c: nat)
    requires a <= b <= c
    ensures Slice(s, a, b) + Slice(s, b, c) == Slice(s, a, c)
    ensures c <= |s| ==> |Slice(s, a, c)| == c - a
  {
  }

  /** What is left of the text. */
  function Rest(text: string, from: nat): string {
    if from < |text| then text[from..] else ""
  }

  lemma {:induction false} Concatenation(a: seq<Part>, b: seq<Part>, at: nat)
    ensures Text(a + b) == Text(a) + Text(b)
    ensures Starts(a + b, at) == Starts(a, at) + Starts(b, at + |Text(a)|)
  {
    if a == [] {
      assert a + b == b;
    } else {
      assert (a + b)[1..] == a[1..] + b;
      Concatenation(a[1..], b, at + |a[0].text|);
    }
  }

  lemma OnePart(p: Part, at: nat)
    ensures Text([p]) == p.text && Starts([p], at) == if p.isMatch then [at] else []
  {
    assert Text([p]) == p.text + Text([]);
    assert Starts([p], at) == (if p.isMatch then [at] else []) + Starts([], at + |p.text|);
  }

  lemma FoundText(text: string, last: nat, index: nat, n: nat)
    requires last <= index
    ensures Text(Found(text, last, index, n)) == Slice(text, last, index + n)
    ensures index <= |text| ==> Starts(Found(text, last, index, n), last) == [index]
  {
    var gap, mark := Part(Slice(text, last, index), false), Part(Slice(text, index, index + n), true);
    OnePart(mark, last + |gap.text|);
    if index > last {
      assert Found(text, last, index, n) == [gap] + [mark];
      OnePart(gap, last);
      GapAndMark(gap, mark, last);
      SlicesMeet(text, last, index, index + n);
      assert index <= |text| ==> |gap.text| == index - last;
    } else {
      assert Found(text, last, index, n) == [mark];
      OnePart(mark, last);
    }
  }

  lemma GapAndMark(gap: Part, mark: Part, at: nat)
    requires !gap.isMatch && mark.isMatch
    ensures Text([gap] + [mark]) == gap.text + mark.text
    ensures Starts([gap] + [mark], at) == [at + |gap.text|]
  {
    Concatenation([gap], [mark], at);
    OnePart(gap, at);
    OnePart(mark, at + |gap.text|);
  }

  /** The scan from `last` on spells the rest of the text. */
  ghost predicate Spelled(text: string, hits: seq<bool>, n: nat, last: nat)
    requires n > 0
  {
    Text(Scan(text, hits, n, last)) == Rest(text, last)
  }

  lemma LastPart(text: string, hits: seq<bool>, n: nat, last: nat)
    requires n > 0 && Next(hits, last) == -1
    ensures Spelled(text, hits, n, last)
  {
    if last < |text| {
      OnePart(Part(text[last..], false), last);
    }
  }

  lemma SliceMeetsRest(text: string, last: nat, next: nat)
    requires last <= next
    ensures Slice(text, last, next) + Rest(text, next) == Rest(text, last)
  {
  }

  lemma JoinRest(text: string, found: seq<Part>, rest: seq<Part>, last: nat, next: nat)
    requires last <= next && Text(found) == Slice(text, last, next) && Text(rest) == Rest(text, next)
    ensures Text(found + rest) == Rest(text, last)
  {
    Concatenation(found, rest, last);
    SliceMeetsRest(text, last, next);
  }

  lemma OneMoreText(text: string, hits: seq<bool>, n: nat, last: nat)
    requires n > 0 && Next(hits, last) != -1 && Spelled(text, hits, n, Next(hits, last) + n)
    ensures Spelled(text, hits, n, last)
  {
    var index := Next(hits, last);
    FoundText(text, last, index, n);
    JoinRest(text, Found(text, last, index, n), Scan(text, hits, n, index + n), last, index + n);
  }

  /** The parts of a scan spell the rest of the text, wherever the hits are. */
  lemma {:induction false} ScanKeepsText(text: string, hits: seq<bool>, n: nat, last: nat)
    requires n > 0
    ensures Spelled(text, hits, n, last)
    decreases |hits| - last
  {
    if Next(hits, last) != -1 {
      ScanKeepsText(text, hits, n, Next(hits, last) + n);
      OneMoreText(text, hits, n, last);
    } else {
      LastPart(text, hits, n, last);
    }
  }

  /** No text is lost or repeated, whatever the lowering did to lengths. */
  lemma SplitKeepsText(text: string, lt: string, ls: string, n: nat)
    requires n > 0
    ensures Text(Split(text, lt, ls, n)) == text
  {
    ScanKeepsText(text, Hits(lt, ls), n, 0);
    OnePart(Part(text, false), 0);
  }

  // ----- leftmost matches -----

  /** The marks are matches, do not overlap, and every match begins inside a mark. */
  ghost predicate LeftmostMarks(lt: string, ls: string, marks: seq<nat>) {
    && Apart(|ls|, marks)
    && (forall k | 0 <= k < |marks| :: MatchAt(lt, ls, marks[k]))
    && forall j {:trigger Covered(|ls|, marks, j)} | MatchAt(lt, ls, j) :: Covered(|ls|, marks, j)
  }

  /** Marks of length `n` for the hits at or after `from`. */
  ghost predicate MarksFrom(hits: seq<bool>, n: nat, marks: seq<nat>, from: nat) {
    && Apart(n, marks)
    && (forall k | 0 <= k < |marks| :: from <= marks[k] < |hits| && hits[marks[k]])
    && forall j {:trigger Covered(n, marks, j)} | from <= j < |hits| && hits[j] :: Covered(n, marks, j)
  }

  ghost predicate Apart(n: nat, marks: seq<nat>) {
    forall k, l | 0 <= k < l < |marks| :: marks[k] + n <= marks[l]
  }

  ghost predicate Covered(n: nat, marks: seq<nat>, j: int) {
    exists k :: 0 <= k < |marks| && marks[k] <= j < marks[k] + n
  }

  lemma PrependMark(hits: seq<bool>, n: nat, marks: seq<nat>, from: nat, index: nat, all: seq<nat>)
    requires n > 0 && from <= index < |hits| && hits[index] && all == [index] + marks
    requires forall j | from <= j < index :: !hits[j]
    requires MarksFrom(hits, n, marks, index + n)
    ensures MarksFrom(hits, n, all, from)
  {
    forall j | from <= j < |hits| && hits[j] ensures Covered(n, all, j) {
      if j < index + n {
        assert all[0] == index;
      } else {
        assert Covered(n, marks, j);
        var k :| 0 <= k < |marks| && marks[k] <= j < marks[k] + n;
        assert all[k + 1] == marks[k];
      }
    }
  }

  lemma FoundMarks(text: string, last: nat, index: nat, n: nat)
    requires last <= index && index + n <= |text|
    ensures var found := Found(text, last, index, n);
            MarksHaveLength(found, n) && Starts(found, last) == [index] && last + |Text(found)| == index + n
  {
    FoundText(text, last, index, n);
    SlicesMeet(text, last, index, index + n);
    assert |Slice(text, index, index + n)| == n;
  }

  /** Parts with one mark, in front of parts whose marks are right. */
  lemma JoinMarks(hits: seq<bool>, n: nat, found: seq<Part>, rest: seq<Part>, last: nat, index: nat)
    requires n > 0 && last <= index < |hits| && hits[index]
    requires forall j | last <= j < index :: !hits[j]
    requires MarksHaveLength(found, n) && Starts(found, last) == [index] && last + |Text(found)| == index + n
    requires MarksHaveLength(rest, n) && MarksFrom(hits, n, Starts(rest, index + n), index + n)
    ensures MarksHaveLength(found + rest, n) && MarksFrom(hits, n, Starts(found + rest, last), last)
  {
    Concatenation(found, rest, last);
    PrependMark(hits, n, Starts(rest, index + n), last, index, Starts(found + rest, last));
  }

  ghost predicate RestMarked(text: string, hits: seq<bool>, n: nat, last: nat)
    requires n > 0
  {
    var rest := Scan(text, hits, n, last);
    MarksFrom(hits, n, Starts(rest, last), last) && MarksHaveLength(rest, n)
  }

  /** A hit is only where the whole search fits into the text. */
  ghost predicate HitsFit(text: string, hits: seq<bool>, n: nat) {
    forall j | 0 <= j < |hits| && hits[j] :: j + n <= |text|
  }

  lemma {:induction false} ScanMarks(text: string, hits: seq<bool>, n: nat, last: nat)
    requires n > 0 && HitsFit(text, hits, n)
    ensures RestMarked(text, hits, n, last)
    decreases |hits| - last
  {
    if Next(hits, last) != -1 {
      ScanMarks(text, hits, n, Next(hits, last) + n);
      OneMoreMark(text, hits, n, last);
    } else {
      NoMoreMarks(text, hits, n, last);
    }
  }

  lemma OneMoreMark(text: string, hits: seq<bool>, n: nat, last: nat)
    requires n > 0 && HitsFit(text, hits, n) && Next(hits, last) != -1
    requires RestMarked(text, hits, n, Next(hits, last) + n)
    ensures RestMarked(text, hits, n, last)
  {
    var index := Next(hits, last);
    NextIsFirst(hits, last);
    FoundMarks(text, last, index, n);
    JoinMarks(hits, n, Found(text, last, index, n), Scan(text, hits, n, index + n), last, index);
  }

  lemma NoMoreMarks(text: string, hits: seq<bool>, n: nat, last: nat)
    requires n > 0 && Next(hits, last) == -1
    ensures RestMarked(text, hits, n, last)
  {
    NextIsFirst(hits, last);
    assert Starts(Scan(text, hits, n, last), last) == [];
  }

  lemma HitsAreMatches(lt: string, ls: string, marks: seq<nat>)
    requires ls != "" && MarksFrom(Hits(lt, ls), |ls|, marks, 0)
    ensures LeftmostMarks(lt, ls, marks)
  {
    forall j | MatchAt(lt, ls, j) ensures Covered(|ls|, marks, j) {
      assert Hits(lt, ls)[j];
    }
  }

  lemma SplitMarks(text: string, lt: string, ls: string)
    requires ls != "" && |lt| == |text|
    ensures LeftmostMarks(lt, ls, Starts(Split(text, lt, ls, |ls|), 0))
    ensures MarksHaveLength(Split(text, lt, ls, |ls|), |ls|)
  {
    ScanMarks(text, Hits(lt, ls), |ls|, 0);
    HitsAreMatches(lt, ls, Starts(Scan(text, Hits(lt, ls), |ls|, 0), 0));
    SplitStarts(text, lt, ls, |ls|);
  }

  /** The fallback adds no mark. */
  lemma SplitStarts(text: string, lt: string, ls: string, n: nat)
    requires n > 0
    ensures Starts(Split(text, lt, ls, n), 0) == Starts(Scan(text, Hits(lt, ls), n, 0), 0)
    ensures MarksHaveLength(Split(text, lt, ls, n), n) <==> MarksHaveLength(Scan(text, Hits(lt, ls), n, 0), n)
  {
    OnePart(Part(text, false), 0);
  }

  /** No mark reaches into an unmarked part. */
  lemma {:induction false} UnmarkedIsClear(n: nat, parts: seq<Part>, k: nat, at: nat)
    requires k < |parts| && !parts[k].isMatch && MarksHaveLength(parts, n)
    ensures var low := at + |Text(parts[..k])|;
            forall i | 0 <= i < |Starts(parts, at)| ::
              Starts(parts, at)[i] + n <= low || low + |parts[k].text| <= Starts(parts, at)[i]
    decreases k
  {
    var rest, next := parts[1..], at + |parts[0].text|;
    if k == 0 {
      StartsFrom(rest, next);
    } else {
      assert parts[..k][0] == parts[0] && parts[..k][1..] == rest[..k - 1];
      UnmarkedIsClear(n, rest, k - 1, next);
      assert Starts(parts, at) == (if parts[0].isMatch then [at] else []) + Starts(rest, next);
    }
  }

  /** With lengths kept, no match begins in an unmarked part. */
  lemma NoMatchUnmarked(text: string, lt: string, ls: string, k: nat, j: nat)
    requires ls != "" && |lt| == |text|
    requires var parts := Split(text, lt, ls, |ls|);
             && k < |parts| && !parts[k].isMatch
             && |Text(parts[..k])| <= j < |Text(parts[..k])| + |parts[k].text|
    ensures !MatchAt(lt, ls, j)
  {
    var parts := Split(text, lt, ls, |ls|);
    SplitMarks(text, lt, ls);
    UnmarkedIsClear(|ls|, parts, k, 0);
    assert !Covered(|ls|, Starts(parts, 0), j);
  }

  lemma {:induction false} StartsFrom(parts: seq<Part>, at: nat)
    ensures forall k | 0 <= k < |Starts(parts, at)| :: Starts(parts, at)[k] >= at
  {
    if parts != [] {
      StartsFrom(parts[1..], at + |parts[0].text|);
    }
  }

  lemma StartsOrdered(n: nat, marks: seq<nat>, k: nat, i: nat)
    requires Apart(n, marks) && k < |marks| && i < |marks|
    ensures k == i || marks[k] + n <= marks[i] || marks[i] + n <= marks[k]
    ensures marks[i] + n <= marks[k] && n > 0 ==> i < k
  {
    assert k < i ==> marks[k] + n <= marks[i];
    assert i < k ==> marks[i] + n <= marks[k];
  }

  /** The mark that covers the j-th of some non-overlapping positions is at least the j-th mark. */
  lemma {:induction false} CoverIndex(n: nat, marks: seq<nat>, other: seq<nat>, j: nat) returns (k: nat)
    requires Apart(n, marks) && Apart(n, other) && j < |other|
    requires forall i | 0 <= i < |other| :: Covered(n, marks, other[i])
    ensures j <= k < |marks| && marks[k] <= other[j]
    ensures other[j] < marks[k] + n
    decreases j
  {
    assert Covered(n, marks, other[j]);
    k :| 0 <= k < |marks| && marks[k] <= other[j] < marks[k] + n;
    if j > 0 {
      var i := CoverIndex(n, marks, other, j - 1);
      assert other[j - 1] + n <= other[j];
      StartsOrdered(n, marks, k, i);
    }
  }

  /** No choice of non-overlapping matches marks more of them. */
  lemma MarksAreMost(lt: string, ls: string, marks: seq<nat>, other: seq<nat>)
    requires LeftmostMarks(lt, ls, marks)
    requires Apart(|ls|, other) && forall k | 0 <= k < |other| :: MatchAt(lt, ls, other[k])
    ensures |other| <= |marks|
  {
    if other != [] {
      var k := CoverIndex(|ls|, marks, other, |other| - 1);
    }
  }

  lemma MarksAgree(lt: string, ls: string, a: seq<nat>, b: seq<nat>, i: nat)
    requires ls != "" && LeftmostMarks(lt, ls, a) && LeftmostMarks(lt, ls, b)
    requires i < |a| && i < |b|
    ensures b[i] <= a[i]
  {
    var k := CoverIndex(|ls|, b, a, i);
    assert i < k ==> b[i] + |ls| <= b[k];
  }

  /** The three conditions leave no choice: the marks are the leftmost matches. */
  lemma LeftmostIsUnique(lt: string, ls: string, a: seq<nat>, b: seq<nat>)
    requires ls != "" && LeftmostMarks(lt, ls, a) && LeftmostMarks(lt, ls, b)
    ensures a == b
  {
    MarksAreMost(lt, ls, a, b);
    MarksAreMost(lt, ls, b, a);
    forall i | 0 <= i < |a| ensures a[i] == b[i] {
      MarksAgree(lt, ls, a, b, i);
      MarksAgree(lt, ls, b, a, i);
    }
  }

  // ----- lowerings that change lengths -----

  /** A lowering character by character. */
  function Lower(low: char -> string, s: string): string {
    if s == "" then "" else low(s[0]) + Lower(low, s[1..])
  }

  /** Lowering leaves something, and lowered characters stay as they are. */
  ghost predicate IsLowering(low: char -> string) {
    forall c: char :: low(c) != "" && forall x | x in low(c) :: low(x) == [x]
  }

  /** Every marked part is, in lower case, the search in lower case. */
  ghost predicate MarksFit(low: char -> string, text: string, search: string) {
    search != "" && Lower(low, search) != "" ==>
      forall p | p in Split(text, Lower(low, text), Lower(low, search), |search|) && p.isMatch ::
        Lower(low, p.text) == Lower(low, search)
  }

  predicate KeepsLength(low: char -> string, s: string) {
    forall k | 0 <= k < |s| :: |low(s[k])| == 1
  }

  lemma {:induction false} LowerAppend(low: char -> string, a: string, b: string)
    ensures Lower(low, a + b) == Lower(low, a) + Lower(low, b)
  {
    if a == "" {
      assert a + b == b;
    } else {
      assert (a + b)[1..] == a[1..] + b;
      LowerAppend(low, a[1..], b);
    }
  }

  lemma {:induction false} LowerLength(low: char -> string, s: string)
    requires KeepsLength(low, s)
    ensures |Lower(low, s)| == |s|
  {
    if s != "" {
      LowerLength(low, s[1..]);
    }
  }

  /** Where lengths are kept, lowering a slice is slicing the lowered text. */
  lemma LowerSlice(low: char -> string, s: string, i: nat, j: nat)
    requires i <= j <= |s| && KeepsLength(low, s)
    ensures |Lower(low, s)| == |s| && Lower(low, s[i..j]) == Lower(low, s)[i..j]
  {
    assert s == (s[..i] + s[i..j]) + s[j..];
    LowerAppend(low, s[..i] + s[i..j], s[j..]);
    LowerAppend(low, s[..i], s[i..j]);
    LowerLength(low, s[..i]);
    LowerLength(low, s[i..j]);
    LowerLength(low, s);
  }

  lemma MarkInFound(text: string, last: nat, index: nat, n: nat, p: Part)
    requires last <= index && p in Found(text, last, index, n) && p.isMatch
    ensures p.text == Slice(text, index, index + n)
  {
  }

  lemma MarkInScan(text: string, hits: seq<bool>, n: nat, last: nat, p: Part)
    requires n > 0 && p in Scan(text, hits, n, last) && p.isMatch
    ensures var index := Next(hits, last);
            index != -1 && (p in Found(text, last, index, n) || p in Scan(text, hits, n, index + n))
  {
  }

  /** A marked part is cut at a hit. */
  lemma {:induction false} MarkIsCutAtHit(text: string, hits: seq<bool>, n: nat, last: nat, p: Part) returns (i: nat)
    requires n > 0 && p in Scan(text, hits, n, last) && p.isMatch
    ensures i < |hits| && hits[i] && p.text == Slice(text, i, i + n)
    decreases |hits| - last
  {
    MarkInScan(text, hits, n, last, p);
    i := Next(hits, last);
    if p in Found(text, last, i, n) {
      MarkInFound(text, last, i, n, p);
    } else {
      i := MarkIsCutAtHit(text, hits, n, i + n, p);
    }
  }

  lemma KeptMarkFits(low: char -> string, text: string, ls: string, i: nat)
    requires KeepsLength(low, text) && MatchAt(Lower(low, text), ls, i)
    ensures Lower(low, Slice(text, i, i + |ls|)) == ls
  {
    LowerLength(low, text);
    LowerSlice(low, text, i, i + |ls|);
  }

  lemma KeptLengthsFit(low: char -> string, text: string, search: string)
    requires KeepsLength(low, text) && KeepsLength(low, search)
    ensures MarksFit(low, text, search)
  {
    var lt, ls, n := Lower(low, text), Lower(low, search), |search|;
    LowerLength(low, text);
    LowerLength(low, search);
    if n > 0 {
      forall p | p in Split(text, lt, ls, n) && p.isMatch ensures Lower(low, p.text) == ls {
        var i := MarkIsCutAtHit(text, Hits(lt, ls), n, 0, p);
        KeptMarkFits(low, text, ls, i);
      }
    }
  }

  /** A search for one character marks every position where the lowered text has it. */
  lemma {:induction false} SingleIsMarked(text: string, hits: seq<bool>, last: nat, k: nat)
    requires last <= k < |hits| && hits[k]
    ensures Part(Slice(text, k, k + 1), true) in Scan(text, hits, 1, last)
    decreases |hits| - last
  {
    NextIsFirst(hits, last);
    var index := Next(hits, last);
    if index < k {
      SingleIsMarked(text, hits, index + 1, k);
    }
  }

  /** The first character that grows shifts every later match: searching for the first character
      of its lower case already marks something else. */
  lemma GrowthMisleads(low: char -> string, text: string, k: nat) returns (search: string)
    requires IsLowering(low) && k < |text| && |low(text[k])| != 1 && KeepsLength(low, text[..k])
    ensures KeepsLength(low, search) && !MarksFit(low, text, search)
  {
    var x := low(text[k])[0];
    assert x in low(text[k]);
    search := [x];
    LowerOne(low, x);
    LowerOne(low, text[k]);
    LowerAt(low, text, k);
    assert Lower(low, text)[k..k + 1] == [x];
    SingleIsMarked(text, Hits(Lower(low, text), [x]), 0, k);
    var p := Part(Slice(text, k, k + 1), true);
    assert p.text == [text[k]];
    assert p in Split(text, Lower(low, text), Lower(low, search), |search|);
  }

  lemma LowerOne(low: char -> string, c: char)
    ensures Lower(low, [c]) == low(c)
  {
    assert Lower(low, [c]) == low(c) + Lower(low, "");
  }

  /** What the first character to grow, if any, becomes begins where it stands. */
  lemma LowerAt(low: char -> string, text: string, k: nat)
    requires k < |text| && low(text[k]) != "" && KeepsLength(low, text[..k])
    ensures k < |Lower(low, text)| && Lower(low, text)[k] == low(text[k])[0]
  {
    assert text == text[..k] + text[k..];
    LowerAppend(low, text[..k], text[k..]);
    LowerLength(low, text[..k]);
    assert Lower(low, text[k..]) == low(text[k]) + Lower(low, text[k..][1..]);
  }

  lemma {:induction false} FirstGrowth(low: char -> string, text: string) returns (k: nat)
    requires !KeepsLength(low, text)
    ensures k < |text| && |low(text[k])| != 1 && KeepsLength(low, text[..k])
  {
    k := 0;
    while |low(text[k])| == 1
      invariant k < |text| && KeepsLength(low, text[..k])
      decreases |text| - k
    {
      k := k + 1;
    }
  }

  /** The lower case of a character that grows occurs in the lowered text. */
  ghost predicate GrownOccurs(low: char -> string, lt: string) {
    exists c: char, i: int :: |low(c)| != 1 && MatchAt(lt, low(c), i)
  }

  lemma MatchWithin(s: string, t: string, u: string, v: string, i: int)
    requires MatchAt(s, t + u + v, i)
    ensures MatchAt(s, u, i + |t|)
  {
    var w := t + u + v;
    forall k | 0 <= k < |u| ensures s[i + |t| + k] == u[k] {
      assert w[|t| + k] == u[k];
      assert s[i..i + |w|][|t| + k] == s[i + |t| + k];
    }
  }

  /** The first character of a search that grows, with what stands around it. */
  lemma GrownCharacter(low: char -> string, search: string) returns (before: string, c: char, after: string)
    requires !KeepsLength(low, search)
    ensures |low(c)| != 1 && Lower(low, search) == Lower(low, before) + low(c) + Lower(low, after)
  {
    var k :| 0 <= k < |search| && |low(search[k])| != 1;
    before, c, after := search[..k], search[k], search[k + 1..];
    assert search == before + search[k..] && search[k..][1..] == after;
    LowerAppend(low, before, search[k..]);
    assert Lower(low, search) == Lower(low, before) + (low(c) + Lower(low, after));
  }

  /** A search that grows finds nothing, unless what it grows to is in the text. */
  lemma GrownSearchMisses(low: char -> string, text: string, search: string)
    requires !KeepsLength(low, search) && !GrownOccurs(low, Lower(low, text))
    ensures MarksFit(low, text, search)
  {
    var lt, ls, n := Lower(low, text), Lower(low, search), |search|;
    var before, c, after := GrownCharacter(low, search);
    if n > 0 && ls != "" {
      forall p | p in Split(text, lt, ls, n) ensures !p.isMatch {
        if p.isMatch {
          var i := MarkIsCutAtHit(text, Hits(lt, ls), n, 0, p);
          MatchWithin(lt, Lower(low, before), low(c), Lower(low, after), i);
        }
      }
    }
  }

  /** A search for one character that grows, found in the text, marks a single character of it. */
  lemma GrownSearchMisleads(low: char -> string, text: string, c: char, i: int)
    requires IsLowering(low) && KeepsLength(low, text) && |low(c)| != 1 && MatchAt(Lower(low, text), low(c), i)
    ensures !MarksFit(low, text, [c])
  {
    var lt := Lower(low, text);
    LowerLength(low, text);
    LowerOne(low, c);
    assert low(c) != "";
    SingleIsMarked(text, Hits(lt, low(c)), 0, i);
    var p := Part(Slice(text, i, i + 1), true);
    LowerLength(low, p.text);
    assert p in Split(text, lt, low(c), |[c]|);
  }

  lemma AllFit(low: char -> string, text: string)
    requires KeepsLength(low, text) && !GrownOccurs(low, Lower(low, text))
    ensures forall search: string :: MarksFit(low, text, search)
  {
    forall search: string ensures MarksFit(low, text, search) {
      if KeepsLength(low, search) {
        KeptLengthsFit(low, text, search);
      } else {
        GrownSearchMisses(low, text, search);
      }
    }
  }

  /** For every search the marked parts are occurrences of it in lower case, if and only if no
      character of the text grows when it is lowered and the lowered text does not contain what
      some other character grows to. */
  lemma MarksFitExactly(low: char -> string, text: string)
    requires IsLowering(low)
    ensures (forall search: string :: MarksFit(low, text, search))
       <==> KeepsLength(low, text) && !GrownOccurs(low, Lower(low, text))
  {
    if !KeepsLength(low, text) {
      var k := FirstGrowth(low, text);
      var search := GrowthMisleads(low, text, k);
    } else if GrownOccurs(low, Lower(low, text)) {
      var c: char, i: int :| |low(c)| != 1 && MatchAt(Lower(low, text), low(c), i);
      GrownSearchMisleads(low, text, c, i);
    } else {
      AllFit(low, text);
    }
  }

  /** The capital I with a dot, whose lower case is an i with a combining dot. */
  function DottedI(c: char): string {
    if c == '\U{130}' then "i\U{307}" else [c]
  }

  /** Searching for it in a text with an i and a combining dot marks the i alone. */
  lemma DottedIMisleads()
    ensures IsLowering(DottedI) && KeepsLength(DottedI, "i\U{307}") && !MarksFit(DottedI, "i\U{307}", "\U{130}")
  {
    var text := "i\U{307}";
    assert Lower(DottedI, text) == text by {
      assert text[1..] == "\U{307}" && text[1..][1..] == "";
      assert Lower(DottedI, text[1..]) == "\U{307}" + Lower(DottedI, "");
    }
    GrownSearchMisleads(DottedI, text, '\U{130}', 0);
  }
}
