/** Habitat's JSON viewer: the token stream it renders, the paths it can fold, and their relation to
    the text that its Copy button takes from JSON.stringify. */
module JsonViewer {
  import Names

  /** A parsed number, by the text String() gives it.  JSON.parse turns an overflowing literal such
      as 1e999 into an infinity. */
  datatype Number = Finite(text: string) | NotFinite(text: string)

  /** Parsed JSON; the fields of an object stand in enumeration order. */
  datatype Json =
    | Null
    | Bool(b: bool)
    | Num(n: Number)
    | Str(s: string)
    | Arr(items: seq<Json>)
    | Obj(fields: seq<Field>)

  datatype Field = Field(key: string, value: Json)

  datatype Token =
    | Key(value: string, path: string)
    | StringToken(value: string, path: string)
    | NumberToken(value: string, path: string)
    | BooleanToken(value: string, path: string)
    | NullToken(value: string, path: string)
    | Punctuation(value: string)
    | Whitespace(value: string)
    | FoldableStart(value: string, path: string, isArray: bool)
    | FoldableEnd(value: string)

  // ----- the parts of a value -----

  function Count(d: Json): nat {
    if d.Arr? then |d.items| else if d.Obj? then |d.fields| else 0
  }

  function Kid(d: Json, k: nat): Json
    requires k < Count(d)
  {
    if d.Arr? then d.items[k] else d.fields[k].value
  }

  function KidPath(d: Json, path: string, k: nat): string
    requires k < Count(d)
  {
    if d.Arr? then path + "[" + Names.Decimal(k) + "]" else path + "." + d.fields[k].key
  }

  /** `"  ".repeat(n)` */
  function Spaces(n: nat): string {
    if n == 0 then "" else Spaces(n - 1) + "  "
  }

  function Hex(n: nat): char
    requires n < 16
  {
    "0123456789abcdef"[n]
  }

  /** One character as section 25.5.2.3 of ECMA-262 writes it. */
  function Escape(c: char): string {
    if c == '\U{8}' then "\\b"
    else if c == '\t' then "\\t"
    else if c == '\n' then "\\n"
    else if c == '\U{c}' then "\\f"
    else if c == '\r' then "\\r"
    else if c == '\"' then "\\\""
    else if c == '\\' then "\\\\"
    else if c as int < 32 then "\\u00" + [Hex(c as int / 16), Hex(c as int % 16)]
    else [c]
  }

  function Escaped(s: string): string {
    if s == "" then "" else Escape(s[0]) + Escaped(s[1..])
  }

  /** QuoteJSONString */
  function Quote(s: string): string {
    "\"" + Escaped(s) + "\""
  }

  // ----- the token stream -----

  function KeyTokens(d: Json, path: string, k: nat): seq<Token>
    requires k < Count(d)
  {
    if d.Arr? then [] else [Key(Quote(d.fields[k].key), KidPath(d, path, k)), Punctuation(": ")]
  }

  /** The tokens of a value: what TokenizeJSON builds. */
  function Tokens(d: Json, toggled: set<string>, folded: set<string>, path: string, indent: nat): seq<Token>
    decreases d, Count(d) + 1
  {
    match d
    case Null => [NullToken("null", path)]
    case Bool(b) => [BooleanToken(if b then "true" else "false", path)]
    case Num(n) => [NumberToken(n.text, path)]
    case Str(s) => [StringToken(if path in toggled then "\"" + s + "\"" else Quote(s), path)]
    case _ =>
      if Count(d) == 0 then [Punctuation(if d.Arr? then "[]" else "{}")]
      else
        [FoldableStart(if d.Arr? then "[" else "{", path, d.Arr?)]
        + (if path in folded then [Punctuation(" ... ")]
           else [Whitespace("\n")] + Lines(d, toggled, folded, path, indent, 0) + [Whitespace(Spaces(indent))])
        + [FoldableEnd(if d.Arr? then "]" else "}")]
  }

  /** The lines of a container from its k-th element on. */
  function Lines(d: Json, toggled: set<string>, folded: set<string>, path: string, indent: nat, k: nat): seq<Token>
    requires k <= Count(d)
    decreases d, Count(d) - k
  {
    if k == Count(d) then []
    else Line(d, toggled, folded, path, indent, k) + Lines(d, toggled, folded, path, indent, k + 1)
  }

  function Line(d: Json, toggled: set<string>, folded: set<string>, path: string, indent: nat, k: nat): seq<Token>
    requires k < Count(d)
    decreases d, 0
  {
    [Whitespace(Spaces(indent) + "  ")]
    + KeyTokens(d, path, k)
    + Tokens(Kid(d, k), toggled, folded, KidPath(d, path, k), indent + 1)
    + (if k < Count(d) - 1 then [Punctuation(",")] else [])
    + [Whitespace("\n")]
  }

  /** tokenizeJSON, with its two loops. */
  method TokenizeJSON(data: Json, toggled: set<string>, folded: set<string>, path: string, indent: nat)
    returns (tokens: seq<Token>)
    ensures tokens == Tokens(data, toggled, folded, path, indent)
    decreases data, 2
  {
    tokens := [];
    match data
    case Null =>
      tokens := tokens + [NullToken("null", path)];
    case Bool(b) =>
      tokens := tokens + [BooleanToken(if b then "true" else "false", path)];
    case Num(n) =>
      tokens := tokens + [NumberToken(n.text, path)];
    case Str(s) =>
      if path in toggled {
        tokens := tokens + [StringToken("\"" + s + "\"", path)];
      } else {
        tokens := tokens + [StringToken(Quote(s), path)];
      }
    case Arr(items) =>
      if |items| == 0 {
        tokens := tokens + [Punctuation("[]")];
      } else {
        tokens := ArrayTokens(data, toggled, folded, path, indent);
      }
    case Obj(fields) =>
      if |fields| == 0 {
        tokens := tokens + [Punctuation("{}")];
      } else {
        tokens := ObjectTokens(data, toggled, folded, path, indent);
      }
  }

  /** The branch for an array that is not empty. */
  method ArrayTokens(data: Json, toggled: set<string>, folded: set<string>, path: string, indent: nat)
    returns (tokens: seq<Token>)
    requires data.Arr? && |data.items| > 0
    ensures tokens == Tokens(data, toggled, folded, path, indent)
    decreases data, 1
  {
    tokens := [FoldableStart("[", path, true)];
    ghost var open := tokens;
    if path in folded {
      tokens := tokens + [Punctuation(" ... ")];
    } else {
      tokens := tokens + [Whitespace("\n")];
      var lines := ArrayLines(data, toggled, folded, path, indent);
      Associates(open, [Whitespace("\n")], lines);
      Associates(open, [Whitespace("\n")] + lines, [Whitespace(Spaces(indent))]);
      tokens := tokens + lines + [Whitespace(Spaces(indent))];
    }
    tokens := tokens + [FoldableEnd("]")];
  }

  /** The branch for an object that is not empty. */
  method ObjectTokens(data: Json, toggled: set<string>, folded: set<string>, path: string, indent: nat)
    returns (tokens: seq<Token>)
    requires data.Obj? && |data.fields| > 0
    ensures tokens == Tokens(data, toggled, folded, path, indent)
    decreases data, 1
  {
    tokens := [FoldableStart("{", path, false)];
    ghost var open := tokens;
    if path in folded {
      tokens := tokens + [Punctuation(" ... ")];
    } else {
      tokens := tokens + [Whitespace("\n")];
      var lines := ObjectLines(data, toggled, folded, path, indent);
      Associates(open, [Whitespace("\n")], lines);
      Associates(open, [Whitespace("\n")] + lines, [Whitespace(Spaces(indent))]);
      tokens := tokens + lines + [Whitespace(Spaces(indent))];
    }
    tokens := tokens + [FoldableEnd("}")];
  }

  lemma Pushes(s: seq<Token>, lead: seq<Token>, key: seq<Token>, item: seq<Token>, comma: seq<Token>,
      newline: seq<Token>)
    ensures s + lead + key + item + comma + newline == s + (lead + key + item + comma + newline)
  {
  }

  lemma Associates(a: seq<Token>, b: seq<Token>, c: seq<Token>)
    ensures a + (b + c) == (a + b) + c
  {
  }

  /** Pushing the key tokens of an object's entry; an array has none. */
  function WithKey(s: seq<Token>, d: Json, path: string, k: nat): seq<Token>
    requires k < Count(d)
  {
    if d.Arr? then s else s + [Key(Quote(d.fields[k].key), KidPath(d, path, k))] + [Punctuation(": ")]
  }

  function WithComma(s: seq<Token>, d: Json, k: nat): seq<Token>
    requires k < Count(d)
  {
    if k < Count(d) - 1 then s + [Punctuation(",")] else s
  }

  lemma KeyPushed(s: seq<Token>, d: Json, path: string, k: nat)
    requires k < Count(d)
    ensures WithKey(s, d, path, k) == s + KeyTokens(d, path, k)
  {
  }

  lemma CommaPushed(s: seq<Token>, d: Json, k: nat)
    requires k < Count(d)
    ensures WithComma(s, d, k) == s + if k < Count(d) - 1 then [Punctuation(",")] else []
  {
  }

  /** What one turn of either loop pushes is the line of that element. */
  lemma LinePushed(d: Json, toggled: set<string>, folded: set<string>, path: string, indent: nat, k: nat,
      s: seq<Token>, all: seq<Token>)
    requires k < Count(d) && s + Lines(d, toggled, folded, path, indent, k) == all
    ensures var item := Tokens(Kid(d, k), toggled, folded, KidPath(d, path, k), indent + 1);
            WithComma(WithKey(s + [Whitespace(Spaces(indent) + "  ")], d, path, k) + item, d, k) + [Whitespace("\n")]
            + Lines(d, toggled, folded, path, indent, k + 1) == all
  {
    var lead, key, newline := [Whitespace(Spaces(indent) + "  ")], KeyTokens(d, path, k), [Whitespace("\n")];
    var item := Tokens(Kid(d, k), toggled, folded, KidPath(d, path, k), indent + 1);
    var comma := if k < Count(d) - 1 then [Punctuation(",")] else [];
    KeyPushed(s + lead, d, path, k);
    CommaPushed(s + lead + key + item, d, k);
    Pushes(s, lead, key, item, comma, newline);
    Associates(s, Line(d, toggled, folded, path, indent, k), Lines(d, toggled, folded, path, indent, k + 1));
  }

  /** The loop over the items of an array. */
  method ArrayLines(data: Json, toggled: set<string>, folded: set<string>, path: string, indent: nat)
    returns (tokens: seq<Token>)
    requires data.Arr?
    ensures tokens == Lines(data, toggled, folded, path, indent, 0)
    decreases data, 0
  {
    tokens := [];
    var index := 0;
    ghost var all := Lines(data, toggled, folded, path, indent, 0);
    while index < |data.items|
      invariant 0 <= index <= |data.items|
      invariant tokens + Lines(data, toggled, folded, path, indent, index) == all
    {
      LinePushed(data, toggled, folded, path, indent, index, tokens, all);
      tokens := tokens + [Whitespace(Spaces(indent) + "  ")];
      var item := TokenizeJSON(data.items[index], toggled, folded, path + "[" + Names.Decimal(index) + "]", indent + 1);
      tokens := tokens + item;
      if index < |data.items| - 1 {
        tokens := tokens + [Punctuation(",")];
      }
      tokens := tokens + [Whitespace("\n")];
      index := index + 1;
    }
  }

  /** The loop over the entries of an object. */
  method ObjectLines(data: Json, toggled: set<string>, folded: set<string>, path: string, indent: nat)
    returns (tokens: seq<Token>)
    requires data.Obj?
    ensures tokens == Lines(data, toggled, folded, path, indent, 0)
    decreases data, 0
  {
    tokens := [];
    var index := 0;
    ghost var all := Lines(data, toggled, folded, path, indent, 0);
    while index < |data.fields|
      invariant 0 <= index <= |data.fields|
      invariant tokens + Lines(data, toggled, folded, path, indent, index) == all
    {
      LinePushed(data, toggled, folded, path, indent, index, tokens, all);
      var keyPath := path + "." + data.fields[index].key;
      tokens := tokens + [Whitespace(Spaces(indent) + "  ")];
      tokens := tokens + [Key(Quote(data.fields[index].key), keyPath)];
      tokens := tokens + [Punctuation(": ")];
      var value := TokenizeJSON(data.fields[index].value, toggled, folded, keyPath, indent + 1);
      tokens := tokens + value;
      if index < |data.fields| - 1 {
        tokens := tokens + [Punctuation(",")];
      }
      tokens := tokens + [Whitespace("\n")];
      index := index + 1;
    }
  }

  /** collectFoldablePaths: the path of every container that is not empty, parents first. */
  function CollectFoldablePaths(d: Json, path: string): seq<string>
    decreases d, Count(d) + 1
  {
    if Count(d) == 0 then [] else [path] + CollectFrom(d, path, 0)
  }

  function CollectFrom(d: Json, path: string, k: nat): seq<string>
    requires k <= Count(d)
    decreases d, Count(d) - k
  {
    if k == Count(d) then []
    else CollectFoldablePaths(Kid(d, k), KidPath(d, path, k)) + CollectFrom(d, path, k + 1)
  }

  // ----- JSON.stringify(data, null, 2), section 25.5.2 of ECMA-262 -----

  /** SerializeJSONProperty, SerializeJSONArray and SerializeJSONObject with a gap of two spaces. */
  function Stringify(d: Json, indent: string): string
    decreases d, Count(d) + 1
  {
    match d
    case Null => "null"
    case Bool(b) => if b then "true" else "false"
    case Num(n) => if n.Finite? then n.text else "null"
    case Str(s) => Quote(s)
    case _ =>
      var stepback := indent;
      var deeper := indent + "  ";
      var partial := Partial(d, deeper, 0);
      var open, close := if d.Arr? then "[" else "{", if d.Arr? then "]" else "}";
      if partial == [] then open + close
      else open + "\n" + deeper + Join(partial, ",\n" + deeper) + "\n" + stepback + close
  }

  /** The element or member texts that are joined. */
  function Partial(d: Json, indent: string, k: nat): (r: seq<string>)
    requires k <= Count(d)
    ensures |r| == Count(d) - k
    decreases d, Count(d) - k
  {
    if k == Count(d) then []
    else
      var text := Stringify(Kid(d, k), indent);
      [if d.Arr? then text else Quote(d.fields[k].key) + ": " + text] + Partial(d, indent, k + 1)
  }

  function Join(parts: seq<string>, separator: string): string {
    if |parts| == 0 then ""
    else if |parts| == 1 then parts[0]
    else parts[0] + separator + Join(parts[1..], separator)
  }

  // ----- what is shown is what Copy takes -----

  /** What the tokens spell. */
  function Text(tokens: seq<Token>): string {
    if tokens == [] then "" else tokens[0].value + Text(tokens[1..])
  }

  predicate AllFinite(d: Json)
    decreases d, Count(d) + 1
  {
    (d.Num? ==> d.n.Finite?) && FiniteFrom(d, 0)
  }

  predicate FiniteFrom(d: Json, k: nat)
    requires k <= Count(d)
    decreases d, Count(d) - k
  {
    k == Count(d) || (AllFinite(Kid(d, k)) && FiniteFrom(d, k + 1))
  }

  /** String() of a number that is not finite. */
  predicate NumbersOk(d: Json)
    decreases d, Count(d) + 1
  {
    && (d.Num? && d.n.NotFinite? ==> d.n.text in {"NaN", "Infinity", "-Infinity"})
    && NumbersOkFrom(d, 0)
  }

  predicate NumbersOkFrom(d: Json, k: nat)
    requires k <= Count(d)
    decreases d, Count(d) - k
  {
    k == Count(d) || (NumbersOk(Kid(d, k)) && NumbersOkFrom(d, k + 1))
  }

  /** Equal texts, or texts that differ at a position both have. */
  ghost predicate Same(equal: bool, a: string, b: string) {
    if equal then a == b
    else exists i :: 0 <= i < |a| && i < |b| && a[..i] == b[..i] && a[i] != b[i]
  }

  lemma SameConcat(e: bool, a: string, b: string, f: bool, c: string, d: string)
    requires Same(e, a, b) && Same(f, c, d)
    ensures Same(e && f, a + c, b + d)
  {
    if !e {
      var i :| 0 <= i < |a| && i < |b| && a[..i] == b[..i] && a[i] != b[i];
      assert (a + c)[..i] == a[..i] && (b + d)[..i] == b[..i];
    } else if !f {
      var i :| 0 <= i < |c| && i < |d| && c[..i] == d[..i] && c[i] != d[i];
      assert (a + c)[..|a| + i] == a + c[..i] && (b + d)[..|a| + i] == b + d[..i];
      assert (a + c)[|a| + i] != (b + d)[|a| + i];
    }
  }

  lemma {:induction false} TextAppend(a: seq<Token>, b: seq<Token>)
    ensures Text(a + b) == Text(a) + Text(b)
  {
    if a == [] {
      assert a + b == b;
    } else {
      assert (a + b)[1..] == a[1..] + b;
      TextAppend(a[1..], b);
    }
  }

  lemma TextOne(t: Token)
    ensures Text([t]) == t.value
  {
    assert Text([t]) == t.value + Text([]);
  }

  lemma TextCons(t: Token, rest: seq<Token>)
    ensures Text([t] + rest) == t.value + Text(rest)
  {
    assert ([t] + rest)[1..] == rest;
  }

  /** What stands before an element's own text. */
  function Lead(d: Json, indent: string, k: nat): string
    requires k < Count(d)
  {
    indent + ItemKey(d, k)
  }

  function ItemKey(d: Json, k: nat): string
    requires k < Count(d)
  {
    if d.Arr? then "" else Quote(d.fields[k].key) + ": "
  }

  function AfterItem(d: Json, k: nat): string
    requires k < Count(d)
  {
    if k < Count(d) - 1 then ",\n" else "\n"
  }

  lemma PartsText(lead: seq<Token>, key: seq<Token>, item: seq<Token>, comma: seq<Token>, newline: seq<Token>)
    ensures Text(lead + key + item + comma + newline) == Text(lead) + Text(key) + Text(item) + Text(comma)
            + Text(newline)
  {
    TextAppend(lead + key + item + comma, newline);
    TextAppend(lead + key + item, comma);
    TextAppend(lead + key, item);
    TextAppend(lead, key);
  }

  lemma LineText(d: Json, toggled: set<string>, folded: set<string>, path: string, n: nat, k: nat)
    requires k < Count(d)
    ensures Text(Line(d, toggled, folded, path, n, k))
         == Lead(d, Spaces(n + 1), k) + Text(Tokens(Kid(d, k), toggled, folded, KidPath(d, path, k), n + 1))
             + AfterItem(d, k)
  {
    var lead, newline := Whitespace(Spaces(n) + "  "), Whitespace("\n");
    var comma := if k < Count(d) - 1 then [Punctuation(",")] else [];
    var item := Tokens(Kid(d, k), toggled, folded, KidPath(d, path, k), n + 1);
    PartsText([lead], KeyTokens(d, path, k), item, comma, [newline]);
    TextOne(lead);
    TextOne(newline);
    TextOne(Punctuation(","));
    KeyText(d, path, k);
    CommaText(Lead(d, Spaces(n + 1), k) + Text(item), k < Count(d) - 1);
  }

  lemma CommaText(s: string, comma: bool)
    ensures s + (if comma then "," else "") + "\n" == s + if comma then ",\n" else "\n"
  {
  }

  lemma KeyText(d: Json, path: string, k: nat)
    requires k < Count(d)
    ensures Text(KeyTokens(d, path, k)) == if d.Arr? then "" else Quote(d.fields[k].key) + ": "
  {
    if d.Obj? {
      TextCons(KeyTokens(d, path, k)[0], [Punctuation(": ")]);
      TextOne(Punctuation(": "));
    }
  }

  /** The joined elements from the k-th on, as the standard lays them out on lines. */
  function Layout(d: Json, indent: string, k: nat): string
    requires k < Count(d)
  {
    indent + Join(Partial(d, indent, k), ",\n" + indent) + "\n"
  }

  lemma LayoutStep(d: Json, indent: string, k: nat)
    requires k < Count(d)
    ensures Layout(d, indent, k) == Lead(d, indent, k) + Stringify(Kid(d, k), indent) + AfterItem(d, k)
                                  + LayoutRest(d, indent, k + 1)
  {
    var rest := Partial(d, indent, k + 1);
    PartialStep(d, indent, k);
    JoinStep(ItemKey(d, k) + Stringify(Kid(d, k), indent), rest, indent);
    LeadKey(d, indent, k, Stringify(Kid(d, k), indent));
    PartialEmpty(d, indent, k + 1);
  }

  lemma PartialStep(d: Json, indent: string, k: nat)
    requires k < Count(d)
    ensures Partial(d, indent, k)
         == [ItemKey(d, k) + Stringify(Kid(d, k), indent)] + Partial(d, indent, k + 1)
  {
    NoKey(Stringify(Kid(d, k), indent));
  }

  lemma PartialEmpty(d: Json, indent: string, k: nat)
    requires k <= Count(d)
    ensures Partial(d, indent, k) == [] <==> k == Count(d)
  {
  }

  lemma NoKey(text: string)
    ensures "" + text == text
  {
  }

  lemma LeadKey(d: Json, indent: string, k: nat, text: string)
    requires k < Count(d)
    ensures indent + (ItemKey(d, k) + text) == Lead(d, indent, k) + text
  {
  }

  lemma JoinStep(first: string, rest: seq<string>, indent: string)
    ensures indent + Join([first] + rest, ",\n" + indent) + "\n"
         == (indent + first) + (if rest == [] then "\n" else ",\n")
          + (if rest == [] then "" else indent + Join(rest, ",\n" + indent) + "\n")
  {
    assert ([first] + rest)[1..] == rest;
  }

  /** Nothing after the last element. */
  function LayoutRest(d: Json, indent: string, k: nat): string
    requires k <= Count(d)
  {
    if k < Count(d) then Layout(d, indent, k) else ""
  }

  lemma SameLine(lead: string, e: bool, shown: string, taken: string, after: string, f: bool, shownRest: string,
      takenRest: string)
    requires Same(e, shown, taken) && Same(f, shownRest, takenRest)
    ensures Same(e && f, (lead + shown + after) + shownRest, (lead + taken + after) + takenRest)
  {
    SameConcat(true, lead, lead, e, shown, taken);
    SameConcat(e, lead + shown, lead + taken, true, after, after);
    SameConcat(e, lead + shown + after, lead + taken + after, f, shownRest, takenRest);
  }

  lemma LinesStep(d: Json, path: string, n: nat, k: nat)
    requires k < Count(d)
    ensures Text(Lines(d, {}, {}, path, n, k))
         == (Lead(d, Spaces(n + 1), k) + Text(Tokens(Kid(d, k), {}, {}, KidPath(d, path, k), n + 1)) + AfterItem(d, k))
          + Text(Lines(d, {}, {}, path, n, k + 1))
  {
    LineText(d, {}, {}, path, n, k);
    TextAppend(Line(d, {}, {}, path, n, k), Lines(d, {}, {}, path, n, k + 1));
  }

  /** One line, with what follows it, as shown and as taken. */
  lemma OneLineText(d: Json, path: string, n: nat, k: nat)
    requires k < Count(d)
    requires Same(AllFinite(Kid(d, k)), Text(Tokens(Kid(d, k), {}, {}, KidPath(d, path, k), n + 1)),
             Stringify(Kid(d, k), Spaces(n + 1)))
    requires Same(FiniteFrom(d, k + 1), Text(Lines(d, {}, {}, path, n, k + 1)), LayoutRest(d, Spaces(n + 1), k + 1))
    ensures Same(AllFinite(Kid(d, k)) && FiniteFrom(d, k + 1), Text(Lines(d, {}, {}, path, n, k)),
            Layout(d, Spaces(n + 1), k))
  {
    var indent := Spaces(n + 1);
    SameLine(Lead(d, indent, k), AllFinite(Kid(d, k)), Text(Tokens(Kid(d, k), {}, {}, KidPath(d, path, k), n + 1)),
      Stringify(Kid(d, k), indent), AfterItem(d, k),
      FiniteFrom(d, k + 1), Text(Lines(d, {}, {}, path, n, k + 1)), LayoutRest(d, indent, k + 1));
    LinesStep(d, path, n, k);
    LayoutStep(d, indent, k);
  }

  lemma {:induction false} LinesText(d: Json, path: string, n: nat, k: nat)
    requires k <= Count(d) && NumbersOkFrom(d, k)
    ensures Same(FiniteFrom(d, k), Text(Lines(d, {}, {}, path, n, k)), LayoutRest(d, Spaces(n + 1), k))
    decreases d, Count(d) - k
  {
    if k < Count(d) {
      TokensText(Kid(d, k), KidPath(d, path, k), n + 1);
      LinesText(d, path, n, k + 1);
      OneLineText(d, path, n, k);
    }
  }

  lemma BracketText(open: Token, middle: seq<Token>, close: Token)
    ensures Text([open] + middle + [close]) == open.value + Text(middle) + close.value
  {
    TextAppend([open] + middle, [close]);
    TextCons(open, middle);
    TextOne(close);
  }

  lemma ContainerTokensText(d: Json, path: string, n: nat)
    requires Count(d) > 0
    ensures Text(Tokens(d, {}, {}, path, n))
         == (if d.Arr? then "[" else "{") + ("\n" + Text(Lines(d, {}, {}, path, n, 0)) + Spaces(n))
          + if d.Arr? then "]" else "}"
  {
    var lines := Lines(d, {}, {}, path, n, 0);
    BracketText(FoldableStart(if d.Arr? then "[" else "{", path, d.Arr?),
      [Whitespace("\n")] + lines + [Whitespace(Spaces(n))], FoldableEnd(if d.Arr? then "]" else "}"));
    BracketText(Whitespace("\n"), lines, Whitespace(Spaces(n)));
  }

  lemma Regroup(open: string, lines: string, indent: string, close: string)
    ensures open + ("\n" + lines + indent) + close == open + "\n" + lines + (indent + close)
  {
  }

  lemma ContainerStringify(d: Json, indent: string)
    requires Count(d) > 0
    ensures Stringify(d, indent)
         == (if d.Arr? then "[" else "{") + "\n" + Layout(d, indent + "  ", 0) + (indent + if d.Arr? then "]" else "}")
  {
  }

  lemma NotNull(text: string)
    requires text in {"NaN", "Infinity", "-Infinity"}
    ensures Same(false, text, "null")
  {
    assert text[..0] == "null"[..0];
  }

  lemma LeafText(d: Json, path: string, n: nat)
    requires Count(d) == 0 && NumbersOk(d)
    ensures Same(AllFinite(d), Text(Tokens(d, {}, {}, path, n)), Stringify(d, Spaces(n)))
  {
    var t := Tokens(d, {}, {}, path, n)[0];
    assert Tokens(d, {}, {}, path, n) == [t];
    TextOne(t);
    assert FiniteFrom(d, 0);
    if d.Num? && d.n.NotFinite? {
      NotNull(d.n.text);
    } else {
      assert Stringify(d, Spaces(n)) == t.value;
    }
  }

  lemma {:induction false} TokensText(d: Json, path: string, n: nat)
    requires NumbersOk(d)
    ensures Same(AllFinite(d), Text(Tokens(d, {}, {}, path, n)), Stringify(d, Spaces(n)))
    decreases d, Count(d) + 1
  {
    if Count(d) == 0 {
      LeafText(d, path, n);
    } else {
      var open, close := (if d.Arr? then "[" else "{") + "\n", Spaces(n) + if d.Arr? then "]" else "}";
      ContainerTokensText(d, path, n);
      ContainerStringify(d, Spaces(n));
      Regroup(if d.Arr? then "[" else "{", Text(Lines(d, {}, {}, path, n, 0)), Spaces(n), if d.Arr? then "]" else "}");
      LinesText(d, path, n, 0);
      var lines, layout := Text(Lines(d, {}, {}, path, n, 0)), Layout(d, Spaces(n + 1), 0);
      SameConcat(true, open, open, AllFinite(d), lines, layout);
      SameConcat(AllFinite(d), open + lines, open + layout, true, close, close);
    }
  }

  /** With nothing toggled or folded the viewer spells JSON.stringify(data, null, 2) if and only if
      every number in the data is finite. */
  lemma ShownIsCopied(d: Json)
    requires NumbersOk(d)
    ensures Text(Tokens(d, {}, {}, "$", 0)) == Stringify(d, "") <==> AllFinite(d)
  {
    TokensText(d, "$", 0);
  }

  // ----- folding -----

  /** A container that is not empty, with the paths of the containers around it. */
  datatype Node = Node(path: string, above: set<string>)

  /** All of them, parents before children and in order. */
  function Outline(d: Json, path: string, above: set<string>): seq<Node>
    decreases d, Count(d) + 1
  {
    if Count(d) == 0 then [] else [Node(path, above)] + OutlineFrom(d, path, above + {path}, 0)
  }

  function OutlineFrom(d: Json, path: string, above: set<string>, k: nat): seq<Node>
    requires k <= Count(d)
    decreases d, Count(d) - k
  {
    if k == Count(d) then []
    else Outline(Kid(d, k), KidPath(d, path, k), above) + OutlineFrom(d, path, above, k + 1)
  }

  /** The paths of the nodes that lie inside no folded one. */
  function Visible(nodes: seq<Node>, folded: set<string>): seq<string> {
    if nodes == [] then []
    else (if nodes[0].above !! folded then [nodes[0].path] else []) + Visible(nodes[1..], folded)
  }

  function Paths(nodes: seq<Node>): seq<string> {
    if nodes == [] then [] else [nodes[0].path] + Paths(nodes[1..])
  }

  /** The paths that get a fold arrow. */
  function Starts(tokens: seq<Token>): seq<string> {
    if tokens == [] then []
    else (if tokens[0].FoldableStart? then [tokens[0].path] else []) + Starts(tokens[1..])
  }

  lemma StartsCons(t: Token, rest: seq<Token>)
    ensures Starts([t] + rest) == (if t.FoldableStart? then [t.path] else []) + Starts(rest)
  {
    assert ([t] + rest)[1..] == rest;
  }

  lemma Regrouped<T>(a: seq<T>, b: seq<T>, c: seq<T>)
    ensures a + (b + c) == (a + b) + c
  {
  }

  lemma {:induction false} StartsAppend(a: seq<Token>, b: seq<Token>)
    ensures Starts(a + b) == Starts(a) + Starts(b)
  {
    if a == [] {
      assert a + b == b;
    } else {
      StartsAppend(a[1..], b);
      StartsCons(a[0], a[1..] + b);
      Regrouped([a[0]], a[1..], b);
      assert [a[0]] + a[1..] == a;
      Regrouped(if a[0].FoldableStart? then [a[0].path] else [], Starts(a[1..]), Starts(b));
    }
  }

  lemma VisibleCons(m: Node, rest: seq<Node>, folded: set<string>)
    ensures Visible([m] + rest, folded) == (if m.above !! folded then [m.path] else []) + Visible(rest, folded)
    ensures Paths([m] + rest) == [m.path] + Paths(rest)
  {
    assert ([m] + rest)[1..] == rest;
  }

  lemma {:induction false} VisibleAppend(a: seq<Node>, b: seq<Node>, folded: set<string>)
    ensures Visible(a + b, folded) == Visible(a, folded) + Visible(b, folded)
    ensures Paths(a + b) == Paths(a) + Paths(b)
  {
    if a == [] {
      assert a + b == b;
    } else {
      VisibleAppend(a[1..], b, folded);
      VisibleCons(a[0], a[1..] + b, folded);
      Regrouped([a[0]], a[1..], b);
      assert [a[0]] + a[1..] == a;
      Regrouped(if a[0].above !! folded then [a[0].path] else [], Visible(a[1..], folded), Visible(b, folded));
      Regrouped([a[0].path], Paths(a[1..]), Paths(b));
    }
  }

  lemma {:induction false} HiddenBelow(nodes: seq<Node>, folded: set<string>, path: string)
    requires path in folded && forall m | m in nodes :: path in m.above
    ensures Visible(nodes, folded) == []
  {
    if nodes != [] {
      assert nodes[0] in nodes;
      HiddenBelow(nodes[1..], folded, path);
    }
  }

  lemma {:induction false} AboveOutline(d: Json, path: string, above: set<string>)
    ensures forall m | m in Outline(d, path, above) :: above <= m.above
    decreases d, Count(d) + 1
  {
    if Count(d) > 0 {
      AboveOutlineFrom(d, path, above + {path}, 0);
    }
  }

  lemma {:induction false} AboveOutlineFrom(d: Json, path: string, above: set<string>, k: nat)
    requires k <= Count(d)
    ensures forall m | m in OutlineFrom(d, path, above, k) :: above <= m.above
    decreases d, Count(d) - k
  {
    if k < Count(d) {
      AboveOutline(Kid(d, k), KidPath(d, path, k), above);
      AboveOutlineFrom(d, path, above, k + 1);
    }
  }

  /** The paths of the outline are the collected ones. */
  lemma {:induction false} OutlineIsCollected(d: Json, path: string, above: set<string>)
    ensures Paths(Outline(d, path, above)) == CollectFoldablePaths(d, path)
    decreases d, Count(d) + 1
  {
    if Count(d) > 0 {
      OutlineFromIsCollected(d, path, above + {path}, 0);
      VisibleAppend([Node(path, above)], OutlineFrom(d, path, above + {path}, 0), {});
      assert Paths([Node(path, above)]) == [path];
    }
  }

  lemma {:induction false} OutlineFromIsCollected(d: Json, path: string, above: set<string>, k: nat)
    requires k <= Count(d)
    ensures Paths(OutlineFrom(d, path, above, k)) == CollectFrom(d, path, k)
    decreases d, Count(d) - k
  {
    if k < Count(d) {
      OutlineIsCollected(Kid(d, k), KidPath(d, path, k), above);
      OutlineFromIsCollected(d, path, above, k + 1);
      VisibleAppend(Outline(Kid(d, k), KidPath(d, path, k), above), OutlineFrom(d, path, above, k + 1), {});
    }
  }

  lemma LineStarts(d: Json, toggled: set<string>, folded: set<string>, path: string, n: nat, k: nat)
    requires k < Count(d)
    ensures Starts(Line(d, toggled, folded, path, n, k))
            == Starts(Tokens(Kid(d, k), toggled, folded, KidPath(d, path, k), n + 1))
  {
    var comma := if k < Count(d) - 1 then [Punctuation(",")] else [];
    NoStarts(KeyTokens(d, path, k));
    NoStarts(comma);
    PartsStarts([Whitespace(Spaces(n) + "  ")], KeyTokens(d, path, k),
      Tokens(Kid(d, k), toggled, folded, KidPath(d, path, k), n + 1), comma, [Whitespace("\n")]);
  }

  lemma PartsStarts(lead: seq<Token>, key: seq<Token>, item: seq<Token>, comma: seq<Token>, newline: seq<Token>)
    requires Starts(key) == Starts(comma) == []
    requires (forall t | t in lead :: !t.FoldableStart?) && forall t | t in newline :: !t.FoldableStart?
    ensures Starts(lead + key + item + comma + newline) == Starts(item)
  {
    StartsAppend(lead + key + item + comma, newline);
    StartsAppend(lead + key + item, comma);
    StartsAppend(lead + key, item);
    StartsAppend(lead, key);
    NoStarts(lead);
    NoStarts(newline);
  }

  lemma {:induction false} NoStarts(tokens: seq<Token>)
    requires forall t | t in tokens :: !t.FoldableStart?
    ensures Starts(tokens) == []
  {
    if tokens != [] {
      assert tokens[0] in tokens;
      NoStarts(tokens[1..]);
    }
  }

  lemma LinesPadding(lines: seq<Token>, n: nat)
    ensures Starts([Whitespace("\n")] + lines + [Whitespace(Spaces(n))]) == Starts(lines)
  {
    StartsAppend([Whitespace("\n")] + lines, [Whitespace(Spaces(n))]);
    StartsAppend([Whitespace("\n")], lines);
    NoStarts([Whitespace("\n")]);
    NoStarts([Whitespace(Spaces(n))]);
  }

  lemma BracketStarts(open: Token, middle: seq<Token>, close: Token)
    requires open.FoldableStart? && close.FoldableEnd?
    ensures Starts([open] + middle + [close]) == [open.path] + Starts(middle)
  {
    StartsAppend([open] + middle, [close]);
    StartsAppend([open], middle);
    NoStarts([close]);
    assert Starts([open]) == [open.path] + Starts([]);
  }

  /** A container shows its own arrow, and those of its lines unless it is folded. */
  lemma ContainerStarts(d: Json, toggled: set<string>, folded: set<string>, path: string, n: nat)
    requires Count(d) > 0
    ensures Starts(Tokens(d, toggled, folded, path, n))
         == [path] + if path in folded then [] else Starts(Lines(d, toggled, folded, path, n, 0))
  {
    var lines := Lines(d, toggled, folded, path, n, 0);
    LinesPadding(lines, n);
    NoStarts([Punctuation(" ... ")]);
    BracketStarts(FoldableStart(if d.Arr? then "[" else "{", path, d.Arr?),
      if path in folded then [Punctuation(" ... ")] else [Whitespace("\n")] + lines + [Whitespace(Spaces(n))],
      FoldableEnd(if d.Arr? then "]" else "}"));
  }

  lemma ContainerVisible(d: Json, folded: set<string>, path: string, above: set<string>)
    requires Count(d) > 0 && above !! folded
    ensures Visible(Outline(d, path, above), folded)
         == [path] + if path in folded then [] else Visible(OutlineFrom(d, path, above + {path}, 0), folded)
  {
    var below := OutlineFrom(d, path, above + {path}, 0);
    VisibleAppend([Node(path, above)], below, folded);
    assert Visible([Node(path, above)], folded) == [path];
    if path in folded {
      AboveOutlineFrom(d, path, above + {path}, 0);
      HiddenBelow(below, folded, path);
    }
  }

  /** The fold arrows shown, in order, are the containers that lie inside no folded one. */
  lemma {:induction false} StartsAreVisible(d: Json, toggled: set<string>, folded: set<string>, path: string, n: nat,
      above: set<string>)
    requires above !! folded
    ensures Starts(Tokens(d, toggled, folded, path, n)) == Visible(Outline(d, path, above), folded)
    decreases d, Count(d) + 1
  {
    if Count(d) == 0 {
      NoStarts(Tokens(d, toggled, folded, path, n));
    } else {
      ContainerStarts(d, toggled, folded, path, n);
      ContainerVisible(d, folded, path, above);
      if path !in folded {
        LinesStarts(d, toggled, folded, path, n, above + {path}, 0);
      }
    }
  }

  lemma OneLineStarts(d: Json, toggled: set<string>, folded: set<string>, path: string, n: nat, k: nat)
    requires k < Count(d)
    ensures Starts(Lines(d, toggled, folded, path, n, k))
         == Starts(Tokens(Kid(d, k), toggled, folded, KidPath(d, path, k), n + 1))
             + Starts(Lines(d, toggled, folded, path, n, k + 1))
  {
    LineStarts(d, toggled, folded, path, n, k);
    StartsAppend(Line(d, toggled, folded, path, n, k), Lines(d, toggled, folded, path, n, k + 1));
  }

  lemma OneNodeVisible(d: Json, folded: set<string>, path: string, above: set<string>, k: nat)
    requires k < Count(d)
    ensures Visible(OutlineFrom(d, path, above, k), folded)
         == Visible(Outline(Kid(d, k), KidPath(d, path, k), above), folded)
             + Visible(OutlineFrom(d, path, above, k + 1), folded)
  {
    VisibleAppend(Outline(Kid(d, k), KidPath(d, path, k), above), OutlineFrom(d, path, above, k + 1), folded);
  }

  lemma {:induction false} LinesStarts(d: Json, toggled: set<string>, folded: set<string>, path: string, n: nat,
      above: set<string>, k: nat)
    requires k <= Count(d) && above !! folded
    ensures Starts(Lines(d, toggled, folded, path, n, k)) == Visible(OutlineFrom(d, path, above, k), folded)
    decreases d, Count(d) - k
  {
    if k < Count(d) {
      StartsAreVisible(Kid(d, k), toggled, folded, KidPath(d, path, k), n + 1, above);
      LinesStarts(d, toggled, folded, path, n, above, k + 1);
      OneLineStarts(d, toggled, folded, path, n, k);
      OneNodeVisible(d, folded, path, above, k);
    }
  }

  lemma {:induction false} NothingFoldedAllVisible(nodes: seq<Node>)
    ensures Visible(nodes, {}) == Paths(nodes)
  {
    if nodes != [] {
      NothingFoldedAllVisible(nodes[1..]);
    }
  }

  /** With nothing folded, the arrows are exactly the collected paths, in order. */
  lemma UnfoldedStarts(d: Json, toggled: set<string>, path: string, n: nat)
    ensures Starts(Tokens(d, toggled, {}, path, n)) == CollectFoldablePaths(d, path)
  {
    StartsAreVisible(d, toggled, {}, path, n, {});
    NothingFoldedAllVisible(Outline(d, path, {}));
    OutlineIsCollected(d, path, {});
  }

  /** The collapse-all effect leaves the root's three tokens: its arrow, the dots and its end. */
  lemma CollapseAll(d: Json, toggled: set<string>)
    requires Count(d) > 0
    ensures var folded := set p | p in CollectFoldablePaths(d, "$");
            var tokens := Tokens(d, toggled, folded, "$", 0);
            && |tokens| == 3 && Starts(tokens) == ["$"] && Text(tokens) == if d.Arr? then "[ ... ]" else "{ ... }"
  {
    var folded := set p | p in CollectFoldablePaths(d, "$");
    assert CollectFoldablePaths(d, "$")[0] == "$" && "$" in folded;
    ContainerStarts(d, toggled, folded, "$", 0);
    FoldedTokens(d, toggled, folded, "$", 0);
  }

  lemma FoldedTokens(d: Json, toggled: set<string>, folded: set<string>, path: string, n: nat)
    requires Count(d) > 0 && path in folded
    ensures |Tokens(d, toggled, folded, path, n)| == 3
    ensures Text(Tokens(d, toggled, folded, path, n)) == if d.Arr? then "[ ... ]" else "{ ... }"
  {
    var open := FoldableStart(if d.Arr? then "[" else "{", path, d.Arr?);
    var dots, close := Punctuation(" ... "), FoldableEnd(if d.Arr? then "]" else "}");
    assert Tokens(d, toggled, folded, path, n) == [open] + ([dots] + [close]);
    TextCons(open, [dots] + [close]);
    TextCons(dots, [close]);
    TextOne(close);
  }

  // ----- brackets -----

  /** The fold brackets still open after the tokens, or none when one does not match. */
  function Nest(tokens: seq<Token>, open: seq<bool>): seq<seq<bool>> {
    if tokens == [] then [open]
    else
      match tokens[0]
      case FoldableStart(_, _, isArray) => Nest(tokens[1..], [isArray] + open)
      case FoldableEnd(value) =>
        if open != [] && value == (if open[0] then "]" else "}") then Nest(tokens[1..], open[1..]) else []
      case _ => Nest(tokens[1..], open)
  }

  /** A stretch of tokens that closes every bracket it opens. */
  ghost predicate Balanced(tokens: seq<Token>) {
    forall rest, open :: Nest(tokens + rest, open) == Nest(rest, open)
  }

  lemma BalancedAppend(a: seq<Token>, b: seq<Token>)
    requires Balanced(a) && Balanced(b)
    ensures Balanced(a + b)
  {
    forall rest, open ensures Nest(a + b + rest, open) == Nest(rest, open) {
      assert a + b + rest == a + (b + rest);
    }
  }

  lemma {:induction false} PlainBalanced(tokens: seq<Token>)
    requires forall t | t in tokens :: !t.FoldableStart? && !t.FoldableEnd?
    ensures Balanced(tokens)
  {
    forall rest, open ensures Nest(tokens + rest, open) == Nest(rest, open) {
      if tokens == [] {
        assert tokens + rest == rest;
      } else {
        assert tokens[0] in tokens;
        assert (tokens + rest)[1..] == tokens[1..] + rest;
        PlainBalanced(tokens[1..]);
      }
    }
  }

  lemma Bracketed(open: Token, middle: seq<Token>, close: Token)
    requires open.FoldableStart? && close.FoldableEnd? && close.value == (if open.isArray then "]" else "}")
    requires Balanced(middle)
    ensures Balanced([open] + middle + [close])
  {
    forall rest, outer ensures Nest([open] + middle + [close] + rest, outer) == Nest(rest, outer) {
      var tail := [close] + rest;
      assert [open] + middle + [close] + rest == [open] + (middle + tail);
      assert ([open] + (middle + tail))[1..] == middle + tail;
      assert Nest(middle + tail, [open.isArray] + outer) == Nest(tail, [open.isArray] + outer);
      assert tail[1..] == rest && ([open.isArray] + outer)[1..] == outer;
    }
  }

  /** Whatever is folded or toggled, start and end tokens match like brackets. */
  lemma {:induction false} TokensBalanced(d: Json, toggled: set<string>, folded: set<string>, path: string, n: nat)
    ensures Balanced(Tokens(d, toggled, folded, path, n))
    decreases d, Count(d) + 1
  {
    if Count(d) == 0 {
      PlainBalanced(Tokens(d, toggled, folded, path, n));
    } else {
      var lines := Lines(d, toggled, folded, path, n, 0);
      var middle := if path in folded then [Punctuation(" ... ")]
          else [Whitespace("\n")] + lines + [Whitespace(Spaces(n))];
      if path in folded {
        PlainBalanced(middle);
      } else {
        LinesBalanced(d, toggled, folded, path, n, 0);
        PlainBalanced([Whitespace("\n")]);
        PlainBalanced([Whitespace(Spaces(n))]);
        BalancedAppend([Whitespace("\n")], lines);
        BalancedAppend([Whitespace("\n")] + lines, [Whitespace(Spaces(n))]);
      }
      Bracketed(FoldableStart(if d.Arr? then "[" else "{", path, d.Arr?), middle,
          FoldableEnd(if d.Arr? then "]" else "}"));
    }
  }

  lemma {:induction false} LinesBalanced(d: Json, toggled: set<string>, folded: set<string>, path: string, n: nat,
      k: nat)
    requires k <= Count(d)
    ensures Balanced(Lines(d, toggled, folded, path, n, k))
    decreases d, Count(d) - k
  {
    if k == Count(d) {
      PlainBalanced([]);
    } else {
      var lead := [Whitespace(Spaces(n) + "  ")] + KeyTokens(d, path, k);
      var item := Tokens(Kid(d, k), toggled, folded, KidPath(d, path, k), n + 1);
      var comma := if k < Count(d) - 1 then [Punctuation(",")] else [];
      PlainBalanced(lead);
      PlainBalanced(comma);
      PlainBalanced([Whitespace("\n")]);
      TokensBalanced(Kid(d, k), toggled, folded, KidPath(d, path, k), n + 1);
      BalancedAppend(lead, item);
      BalancedAppend(lead + item, comma);
      BalancedAppend(lead + item + comma, [Whitespace("\n")]);
      LinesBalanced(d, toggled, folded, path, n, k + 1);
      BalancedAppend(Line(d, toggled, folded, path, n, k), Lines(d, toggled, folded, path, n, k + 1));
    }
  }
}
