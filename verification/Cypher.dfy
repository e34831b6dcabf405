/** Printing honey objects as Cypher, and a reader for the printed fragment of openCypher 9:
    string literals with escapes, integers, booleans, lists, property maps, and the one
    statement shape the planner writes. */
module Cypher {
  import opened Text
  import opened Escaping

  datatype Value = VBool(b: bool) | VInt(n: int) | VText(s: string) | VList(items: seq<Value>)

  const QUOTED: seq<char> := ['\\', '\'']

  // ---------------------------------------------------------------- printing

  /** Two whole-string replacements, backslash first. */
  function Quote(s: string): string {
    "'" + EscapeOne(EscapeOne(s, '\\'), '\'') + "'"
  }

  function PrintValue(v: Value): string
    decreases v
  {
    match v
    case VBool(b) => if b then "true" else "false"
    case VInt(n) => IntToString(n)
    case VText(s) => Quote(s)
    case VList(items) => "[" + PrintItems(items) + "]"
  }

  /** Python's `", ".join(...)` over printed values. */
  function PrintItems(items: seq<Value>): string
    decreases items
  {
    if items == [] then ""
    else if |items| == 1 then PrintValue(items[0])
    else PrintValue(items[0]) + ", " + PrintItems(items[1..])
  }

  // ---------------------------------------------------------------- reading

  datatype Parsed<+T> = Failed | Parsed(value: T, rest: string)

  /** The grammar's character classes: how an identifier starts and goes on, and white space. */
  datatype Grammar = Grammar(nameStart: char -> bool, namePart: char -> bool, blank: char -> bool)

  predicate Apart(g: Grammar, c: char) { !g.namePart(c) && !g.blank(c) }

  /** What the results below need of the classes: identifiers go on with what starts one and with
      digits, hold no white space and none of the punctuation, which is not white space either. */
  ghost predicate Fit(g: Grammar) {
    && (forall c: char :: g.nameStart(c) || IsDigit(c) ==> g.namePart(c))
    && (forall c: char :: g.namePart(c) ==> !g.blank(c))
    && Apart(g, '\'') && Apart(g, '"') && Apart(g, '[') && Apart(g, ']') && Apart(g, '{') && Apart(g, '}')
    && Apart(g, ',') && Apart(g, ':') && Apart(g, '`') && Apart(g, '-') && Apart(g, '.')
    && g.blank(' ') && g.namePart('t') && g.namePart('f')
  }

  /** Nothing that could continue a word or a number. */
  predicate Delimited(g: Grammar, rest: string) {
    rest == "" || !(g.namePart(rest[0]) || rest[0] == '.')
  }

  function SkipBlanks(g: Grammar, s: string): (r: string)
    ensures |r| <= |s|
  {
    if s != "" && g.blank(s[0]) then SkipBlanks(g, s[1..]) else s
  }

  /** The EscapedChar production, without the Unicode escapes. */
  function Escaped(c: char): Option<char> {
    if c in ['\\', '\'', '"'] then Some(c)
    else if c in ['b', 'B'] then Some(8 as char)
    else if c in ['f', 'F'] then Some(12 as char)
    else if c in ['n', 'N'] then Some('\n')
    else if c in ['r', 'R'] then Some('\r')
    else if c in ['t', 'T'] then Some('\t')
    else None
  }

  function Cons(c: char, p: Parsed<string>): Parsed<string> {
    if p.Parsed? then Parsed([c] + p.value, p.rest) else Failed
  }

  /** The inside of a StringLiteral, up to and including the closing quote `q`. */
  function ReadChars(s: string, q: char): (p: Parsed<string>)
    ensures p.Parsed? ==> |p.rest| < |s|
  {
    if s == "" then Failed
    else if s[0] == q then Parsed("", s[1..])
    else if s[0] == '\\' then
      if |s| >= 2 && Escaped(s[1]).Some? then Cons(Escaped(s[1]).value, ReadChars(s[2..], q)) else Failed
    else Cons(s[0], ReadChars(s[1..], q))
  }

  function Span(s: string, p: char -> bool): (r: string)
    ensures |r| <= |s| && r == s[..|r|]
  {
    if s == "" || !p(s[0]) then "" else [s[0]] + Span(s[1..], p)
  }

  function ValueOf(digits: string): nat
    requires forall i :: 0 <= i < |digits| ==> IsDigit(digits[i])
  {
    if digits == "" then 0 else 10 * ValueOf(digits[..|digits| - 1]) + DigitValue(digits[|digits| - 1])
  }

  lemma {:induction false} SpanHolds(s: string, p: char -> bool)
    ensures forall i :: 0 <= i < |Span(s, p)| ==> p(Span(s, p)[i])
  {
    if s != "" && p(s[0]) {
      SpanHolds(s[1..], p);
    }
  }

  /** A DecimalInteger: a zero alone, or digits that do not start with one. */
  function ReadNat(g: Grammar, s: string): (p: Parsed<nat>)
    ensures p.Parsed? ==> |p.rest| < |s|
  {
    var digits := Span(s, c => IsDigit(c));
    SpanHolds(s, c => IsDigit(c));
    if digits == "" || (digits[0] == '0' && |digits| > 1) || !Delimited(g, s[|digits|..]) then Failed
    else Parsed(ValueOf(digits), s[|digits|..])
  }

  function ReadKeyword(g: Grammar, s: string, word: string): (p: Parsed<string>)
    ensures p.Parsed? ==> word <= s && p.rest == s[|word|..]
  {
    if word <= s && Delimited(g, s[|word|..]) then Parsed(word, s[|word|..]) else Failed
  }

  function ReadText(s: string, q: char): (p: Parsed<Value>)
    ensures p.Parsed? ==> |p.rest| < |s|
  {
    var p := ReadChars(s, q);
    if p.Parsed? then Parsed(VText(p.value), p.rest) else Failed
  }

  function ReadInt(g: Grammar, s: string): (p: Parsed<Value>)
    ensures p.Parsed? ==> |p.rest| < |s|
  {
    if s != "" && s[0] == '-' then
      var p := ReadNat(g, s[1..]);
      if p.Parsed? then var n: int := p.value; Parsed(VInt(-n), p.rest) else Failed
    else
      var p := ReadNat(g, s);
      if p.Parsed? then Parsed(VInt(p.value), p.rest) else Failed
  }

  function ReadBool(g: Grammar, s: string): (p: Parsed<Value>)
    ensures p.Parsed? ==> |p.rest| < |s|
  {
    if ReadKeyword(g, s, "true").Parsed? then Parsed(VBool(true), ReadKeyword(g, s, "true").rest)
    else if ReadKeyword(g, s, "false").Parsed? then Parsed(VBool(false), ReadKeyword(g, s, "false").rest)
    else Failed
  }

  function ReadValue(g: Grammar, s: string): (p: Parsed<Value>)
    ensures p.Parsed? ==> |p.rest| < |s|
    decreases |s|, 0
  {
    if s == "" then Failed
    else if s[0] == '[' then ReadList(g, s[1..])
    else if s[0] in ['\'', '"'] then ReadText(s[1..], s[0])
    else if s[0] == '-' || IsDigit(s[0]) then ReadInt(g, s)
    else ReadBool(g, s)
  }

  /** A list after its opening bracket. */
  function ReadList(g: Grammar, s: string): (p: Parsed<Value>)
    ensures p.Parsed? ==> |p.rest| < |s|
    decreases |s|, 2
  {
    var inner := SkipBlanks(g, s);
    if inner != "" && inner[0] == ']' then Parsed(VList([]), inner[1..])
    else
      var p := ReadItems(g, inner);
      if p.Parsed? then Parsed(VList(p.value), p.rest) else Failed
  }

  /** One or more values separated by commas, and the closing bracket. */
  function ReadItems(g: Grammar, s: string): (p: Parsed<seq<Value>>)
    ensures p.Parsed? ==> |p.rest| < |s|
    decreases |s|, 1
  {
    var first := ReadValue(g, s);
    if first.Failed? then Failed
    else
      var after := SkipBlanks(g, first.rest);
      if after == "" then Failed
      else if after[0] == ']' then Parsed([first.value], after[1..])
      else if after[0] == ',' then
        var more := ReadItems(g, SkipBlanks(g, after[1..]));
        if more.Parsed? then Parsed([first.value] + more.value, more.rest) else Failed
      else Failed
  }

  // ---------------------------------------------------------------- printing is undone

  /** The two replacements are one pass, so a closing quote inside never stands bare. */
  lemma QuoteIsOnePass(s: string)
    ensures Quote(s) == "'" + EscapeAll(s, QUOTED) + "'"
  {
    EscapeNone(s, []);
    EscapeOneMore(s, [], '\\');
    EscapeOneMore(s, ['\\'], '\'');
    assert [] + ['\\'] == ['\\'] && ['\\'] + ['\''] == QUOTED;
  }

  lemma EscapedUnfolds(c: char, tail: string)
    requires c in QUOTED
    ensures ReadChars(['\\', c] + tail, '\'') == Cons(c, ReadChars(tail, '\''))
  {
    assert (['\\', c] + tail)[2..] == tail;
  }

  lemma PlainUnfolds(c: char, tail: string)
    requires c !in QUOTED
    ensures ReadChars([c] + tail, '\'') == Cons(c, ReadChars(tail, '\''))
  {
    assert ([c] + tail)[1..] == tail;
  }

  lemma EscapeStep(s: string, rest: string)
    requires s != ""
    ensures EscapeAll(s, QUOTED) + rest
         == (if s[0] in QUOTED then ['\\', s[0]] else [s[0]]) + (EscapeAll(s[1..], QUOTED) + rest)
  {
  }

  lemma {:induction false} CharsReadBack(s: string, rest: string)
    ensures ReadChars(EscapeAll(s, QUOTED) + ("'" + rest), '\'') == Parsed(s, rest)
  {
    if s == "" {
      assert EscapeAll(s, QUOTED) + ("'" + rest) == "'" + rest;
      assert ("'" + rest)[1..] == rest;
    } else {
      CharsReadBack(s[1..], rest);
      var tail := EscapeAll(s[1..], QUOTED) + ("'" + rest);
      EscapeStep(s, "'" + rest);
      if s[0] in QUOTED {
        EscapedUnfolds(s[0], tail);
      } else {
        PlainUnfolds(s[0], tail);
      }
      assert s == [s[0]] + s[1..];
    }
  }

  lemma {:induction false} NatReadsBack(n: nat)
    ensures ValueOf(NatToString(n)) == n
    ensures n > 0 ==> NatToString(n)[0] != '0'
    ensures n == 0 ==> NatToString(n) == "0"
  {
    var d := NatToString(n);
    if n >= 10 {
      NatReadsBack(n / 10);
      assert d[..|d| - 1] == NatToString(n / 10);
    } else {
      assert d[..0] == "";
    }
  }

  lemma {:induction false} SpanStops(s: string, rest: string, p: char -> bool)
    requires forall i :: 0 <= i < |s| ==> p(s[i])
    requires rest == "" || !p(rest[0])
    ensures Span(s + rest, p) == s
  {
    if s == "" {
      assert s + rest == rest;
    } else {
      assert (s + rest)[1..] == s[1..] + rest;
      SpanStops(s[1..], rest, p);
    }
  }

  lemma NatTextReadsBack(g: Grammar, n: nat, rest: string)
    requires Fit(g)
    requires Delimited(g, rest)
    ensures ReadNat(g, NatToString(n) + rest) == Parsed(n, rest)
  {
    var d := NatToString(n);
    NatReadsBack(n);
    SpanStops(d, rest, c => IsDigit(c));
    assert (d + rest)[|d|..] == rest;
  }

  lemma NegativeUnfolds(g: Grammar, s: string, n: int, rest: string)
    requires Fit(g)
    requires n < 0 && ReadNat(g, s) == Parsed(-n, rest)
    ensures ReadValue(g, "-" + s) == Parsed(VInt(n), rest)
  {
    assert ("-" + s)[1..] == s;
  }

  lemma PositiveUnfolds(g: Grammar, s: string, n: nat, rest: string)
    requires Fit(g)
    requires s != "" && IsDigit(s[0]) && ReadNat(g, s) == Parsed(n, rest)
    ensures ReadValue(g, s) == Parsed(VInt(n), rest)
  {
  }

  lemma SignInFront(d: string, rest: string)
    ensures ("-" + d) + rest == "-" + (d + rest)
  {
  }

  lemma IntReadsBack(g: Grammar, n: int, rest: string)
    requires Fit(g)
    requires Delimited(g, rest)
    ensures ReadValue(g, IntToString(n) + rest) == Parsed(VInt(n), rest)
  {
    if n < 0 {
      NatTextReadsBack(g, -n, rest);
      NegativeUnfolds(g, NatToString(-n) + rest, n, rest);
      SignInFront(NatToString(-n), rest);
    } else {
      NatTextReadsBack(g, n, rest);
      PositiveUnfolds(g, NatToString(n) + rest, n, rest);
    }
  }

  lemma BoolReadsBack(g: Grammar, b: bool, rest: string)
    requires Fit(g)
    requires Delimited(g, rest)
    ensures ReadValue(g, (if b then "true" else "false") + rest) == Parsed(VBool(b), rest)
  {
    if b {
      assert ("true" + rest)[4..] == rest;
    } else {
      assert ("false" + rest)[5..] == rest;
      assert ("false" + rest)[0] == "false"[0] == 'f';
    }
  }

  lemma TextUnfolds(g: Grammar, body: string, s: string, rest: string)
    requires ReadChars(body, '\'') == Parsed(s, rest)
    ensures ReadValue(g, "'" + body) == Parsed(VText(s), rest)
  {
    assert ("'" + body)[1..] == body;
  }

  lemma InQuotes(inner: string, rest: string)
    ensures ("'" + inner + "'") + rest == "'" + (inner + ("'" + rest))
  {
  }

  lemma TextReadsBack(g: Grammar, s: string, rest: string)
    requires Fit(g)
    ensures ReadValue(g, Quote(s) + rest) == Parsed(VText(s), rest)
  {
    QuoteIsOnePass(s);
    CharsReadBack(s, rest);
    TextUnfolds(g, EscapeAll(s, QUOTED) + ("'" + rest), s, rest);
    InQuotes(EscapeAll(s, QUOTED), rest);
  }

  /** A printed value starts with a character that is neither blank nor a closing bracket. */
  lemma PrintedStarts(g: Grammar, v: Value)
    requires Fit(g)
    ensures PrintValue(v) != "" && !g.blank(PrintValue(v)[0]) && PrintValue(v)[0] != ']'
  {
  }

  lemma {:induction false} ItemsStart(g: Grammar, items: seq<Value>, rest: string)
    requires Fit(g)
    requires items != []
    ensures PrintItems(items) != "" && SkipBlanks(g, PrintItems(items) + rest) == PrintItems(items) + rest
    ensures PrintItems(items)[0] != ']'
  {
    PrintedStarts(g, items[0]);
  }

  lemma ReadListUnfolds(g: Grammar, inner: string)
    requires Fit(g)
    requires inner != "" && inner[0] != ']' && SkipBlanks(g, inner) == inner
    requires ReadItems(g, inner).Parsed?
    ensures ReadValue(g, "[" + inner) == Parsed(VList(ReadItems(g, inner).value), ReadItems(g, inner).rest)
  {
    assert ("[" + inner)[1..] == inner;
  }

  lemma ReadEmptyList(g: Grammar, rest: string)
    requires Fit(g)
    ensures ReadValue(g, "[" + ("]" + rest)) == Parsed(VList([]), rest)
  {
    assert ("[" + ("]" + rest))[1..] == "]" + rest;
    assert ("]" + rest)[1..] == rest;
  }

  lemma LastItemUnfolds(g: Grammar, first: string, v: Value, rest: string)
    requires Fit(g)
    requires ReadValue(g, first + ("]" + rest)) == Parsed(v, "]" + rest)
    ensures ReadItems(g, first + ("]" + rest)) == Parsed([v], rest)
  {
    assert ("]" + rest)[1..] == rest;
  }

  lemma CommaSkips(g: Grammar, tail: string)
    requires Fit(g)
    requires SkipBlanks(g, tail) == tail
    ensures SkipBlanks(g, ", " + tail) == ", " + tail && (", " + tail)[0] == ','
    ensures SkipBlanks(g, (", " + tail)[1..]) == tail
  {
    assert (", " + tail)[1..] == " " + tail && (" " + tail)[1..] == tail;
  }

  lemma NextItemUnfolds(g: Grammar, first: string, v: Value, tail: string)
    requires Fit(g)
    requires ReadValue(g, first + (", " + tail)) == Parsed(v, ", " + tail)
    requires SkipBlanks(g, tail) == tail && ReadItems(g, tail).Parsed?
    ensures ReadItems(g, first + (", " + tail)) == Parsed([v] + ReadItems(g, tail).value, ReadItems(g, tail).rest)
  {
    CommaSkips(g, tail);
  }

  /** Every nested value is read back from its printed form, whatever follows it. */
  lemma {:induction false} PrintedValueReadsBack(g: Grammar, v: Value, rest: string)
    requires Fit(g)
    requires Delimited(g, rest)
    ensures ReadValue(g, PrintValue(v) + rest) == Parsed(v, rest)
    decreases v
  {
    match v
    case VBool(b) => BoolReadsBack(g, b, rest);
    case VInt(n) => IntReadsBack(g, n, rest);
    case VText(s) => TextReadsBack(g, s, rest);
    case VList(items) =>
      var inner := PrintItems(items) + ("]" + rest);
      assert PrintValue(v) + rest == "[" + inner;
      if items == [] {
        assert inner == "]" + rest;
        ReadEmptyList(g, rest);
      } else {
        ItemsStart(g, items, "]" + rest);
        PrintedItemsReadBack(g, items, rest);
        ReadListUnfolds(g, inner);
      }
  }

  /** Printed items and what closes them. */
  function ItemsThen(items: seq<Value>, closing: string): string { PrintItems(items) + closing }

  lemma ItemsStep(items: seq<Value>, closing: string)
    requires |items| > 1
    ensures ItemsThen(items, closing) == PrintValue(items[0]) + (", " + ItemsThen(items[1..], closing))
  {
    Regroup(PrintValue(items[0]), ", ", PrintItems(items[1..]), closing);
  }

  lemma {:induction false} PrintedItemsReadBack(g: Grammar, items: seq<Value>, rest: string)
    requires Fit(g)
    requires items != []
    ensures ReadItems(g, ItemsThen(items, "]" + rest)) == Parsed(items, rest)
    decreases items
  {
    if |items| == 1 {
      PrintedValueReadsBack(g, items[0], "]" + rest);
      LastItemUnfolds(g, PrintValue(items[0]), items[0], rest);
      assert items == [items[0]];
    } else {
      var more := items[1..];
      var tail := ItemsThen(more, "]" + rest);
      PrintedItemsReadBack(g, more, rest);
      ItemsStart(g, more, "]" + rest);
      PrintedValueReadsBack(g, items[0], ", " + tail);
      NextItemUnfolds(g, PrintValue(items[0]), items[0], tail);
      ItemsStep(items, "]" + rest);
      assert [items[0]] + more == items;
    }
  }
}
