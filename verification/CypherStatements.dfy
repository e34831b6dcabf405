/** The statement written for one honey object, and reading it back. */
module CypherStatements {
  import opened Text
  import opened Escaping
  import opened Cypher

  datatype Entry = Entry(key: string, value: Value)

  /** A planned honey object, its attributes in insertion order. */
  datatype HoneyNode = HoneyNode(
    kind: string, name: string, role: string, color: string, notes: string, attributes: seq<Entry>)

  // ---------------------------------------------------------------- the property dictionary

  /** Setting a key keeps the place it first had. */
  function Put(es: seq<Entry>, key: string, v: Value): seq<Entry> {
    if es == [] then [Entry(key, v)]
    else if es[0].key == key then [Entry(key, v)] + es[1..]
    else [es[0]] + Put(es[1..], key, v)
  }

  function PutAll(es: seq<Entry>, more: seq<Entry>): seq<Entry> {
    if more == [] then es
    else
      var n := |more| - 1;
      Put(PutAll(es, more[..n]), more[n].key, more[n].value)
  }

  function OwnFields(o: HoneyNode): seq<Entry> {
    [Entry("name", VText(o.name)), Entry("role", VText(o.role)),
     Entry("color", VText(o.color)), Entry("notes", VText(o.notes))]
  }

  /** The object's four fields, overridden by its attributes. */
  function Properties(o: HoneyNode): seq<Entry> { PutAll(OwnFields(o), o.attributes) }

  function Lookup(es: seq<Entry>, key: string): Option<Value> {
    if es == [] then None else if es[0].key == key then Some(es[0].value) else Lookup(es[1..], key)
  }

  function LastOf(es: seq<Entry>, key: string): Option<Value> {
    if es == [] then None
    else
      var n := |es| - 1;
      if es[n].key == key then Some(es[n].value) else LastOf(es[..n], key)
  }

  lemma {:induction false} PutThenLookup(es: seq<Entry>, key: string, v: Value, other: string)
    ensures Lookup(Put(es, key, v), other) == if other == key then Some(v) else Lookup(es, other)
  {
    if es != [] {
      PutThenLookup(es[1..], key, v, other);
    }
  }

  lemma {:induction false} PutAllThenLookup(es: seq<Entry>, more: seq<Entry>, key: string)
    ensures Lookup(PutAll(es, more), key)
         == if LastOf(more, key).Some? then LastOf(more, key) else Lookup(es, key)
  {
    if more != [] {
      var n := |more| - 1;
      PutAllThenLookup(es, more[..n], key);
      PutThenLookup(PutAll(es, more[..n]), more[n].key, more[n].value, key);
    }
  }

  /** A property is the last attribute of its key, or else the object's own field of that name. */
  lemma PropertyIs(o: HoneyNode, key: string)
    ensures Lookup(Properties(o), key)
         == if LastOf(o.attributes, key).Some? then LastOf(o.attributes, key)
            else match key
                 case "name" => Some(VText(o.name))
                 case "role" => Some(VText(o.role))
                 case "color" => Some(VText(o.color))
                 case "notes" => Some(VText(o.notes))
                 case _ => None
  {
    PutAllThenLookup(OwnFields(o), o.attributes, key);
    FourFields(VText(o.name), VText(o.role), VText(o.color), VText(o.notes), key);
  }

  lemma FourFields(name: Value, role: Value, color: Value, notes: Value, key: string)
    ensures Lookup([Entry("name", name), Entry("role", role), Entry("color", color), Entry("notes", notes)], key)
         == (match key
             case "name" => Some(name)
             case "role" => Some(role)
             case "color" => Some(color)
             case "notes" => Some(notes)
             case _ => None)
  {
    var none: seq<Entry> := [];
    var last := [Entry("notes", notes)] + none;
    var two := [Entry("color", color)] + last;
    var three := [Entry("role", role)] + two;
    LookupFirst(Entry("notes", notes), none, key);
    LookupFirst(Entry("color", color), last, key);
    LookupFirst(Entry("role", role), two, key);
    LookupFirst(Entry("name", name), three, key);
    assert [Entry("name", name)] + three == [Entry("name", name), Entry("role", role), Entry("color", color), Entry("notes", notes)];
  }

  lemma LookupFirst(e: Entry, rest: seq<Entry>, key: string)
    ensures Lookup([e] + rest, key) == if e.key == key then Some(e.value) else Lookup(rest, key)
  {
    assert ([e] + rest)[1..] == rest;
  }

  /** The last entry of the key. */
  lemma {:induction false} LastOfIs(es: seq<Entry>, key: string)
    ensures LastOf(es, key).None? <==> forall e :: e in es ==> e.key != key
    ensures LastOf(es, key).Some? ==>
              exists i :: 0 <= i < |es| && es[i] == Entry(key, LastOf(es, key).value) && forall j :: i < j < |es| ==> es[j].key != key
  {
    if es != [] && es[|es| - 1].key != key {
      var n := |es| - 1;
      LastOfIs(es[..n], key);
      assert forall e :: e in es <==> e in es[..n] || e == es[n];
      if LastOf(es, key).Some? {
        var i :| 0 <= i < n && es[..n][i] == Entry(key, LastOf(es, key).value) && forall j :: i < j < n ==> es[..n][j].key != key;
        assert es[i] == Entry(key, LastOf(es, key).value) && forall j :: i < j < n ==> es[j] == es[..n][j];
      }
    }
  }

  lemma {:induction false} PutKeys(es: seq<Entry>, key: string, v: Value, e: Entry)
    requires e in Put(es, key, v)
    ensures e == Entry(key, v) || e in es
  {
    if es != [] && es[0].key != key && e != es[0] {
      PutKeys(es[1..], key, v, e);
    }
  }

  // ---------------------------------------------------------------- printing

  function PrintEntry(e: Entry): string { e.key + ": " + PrintValue(e.value) }

  function PrintEntries(es: seq<Entry>): string {
    if es == [] then ""
    else if |es| == 1 then PrintEntry(es[0])
    else PrintEntry(es[0]) + ", " + PrintEntries(es[1..])
  }

  const OPENING := "MERGE (n:"
  const KEYED := " {name: "
  const SETTING := "}) SET n += {"

  /** The statement without its closing semicolon. */
  function Body(o: HoneyNode): string {
    OPENING + o.kind + KEYED + PrintValue(VText(o.name)) + SETTING + PrintEntries(Properties(o)) + "}"
  }

  function ToCypher(o: HoneyNode): string { Body(o) + ";" }

  // ---------------------------------------------------------------- reading

  predicate IsName(g: Grammar, s: string) {
    s != "" && g.nameStart(s[0]) && forall i :: 0 <= i < |s| ==> g.namePart(s[i])
  }

  /** The rest of an EscapedSymbolicName: a doubled backquote stands for one, a single one ends it. */
  function ReadQuoted(s: string): (p: Parsed<string>)
    ensures p.Parsed? ==> |p.rest| < |s|
  {
    if s == "" then Failed
    else if s[0] != '`' then Cons(s[0], ReadQuoted(s[1..]))
    else if |s| >= 2 && s[1] == '`' then Cons('`', ReadQuoted(s[2..]))
    else Parsed("", s[1..])
  }

  /** A SymbolicName, plain or in backquotes. */
  function ReadName(g: Grammar, s: string): (p: Parsed<string>)
    ensures p.Parsed? ==> |p.rest| < |s|
  {
    if s != "" && s[0] == '`' then ReadQuoted(s[1..])
    else
      var name := Span(s, g.namePart);
      if name != "" && g.nameStart(name[0]) then Parsed(name, s[|name|..]) else Failed
  }

  function Expect(s: string, literal: string): (p: Parsed<string>)
    ensures p.Parsed? ==> |p.rest| == |s| - |literal|
  {
    if literal <= s then Parsed(literal, s[|literal|..]) else Failed
  }

  function ReadEntry(g: Grammar, s: string): (p: Parsed<Entry>)
    ensures p.Parsed? ==> |p.rest| < |s|
  {
    var key := ReadName(g, SkipBlanks(g, s));
    if key.Failed? then Failed
    else
      var after := SkipBlanks(g, key.rest);
      if after == "" || after[0] != ':' then Failed
      else
        var v := ReadValue(g, SkipBlanks(g, after[1..]));
        if v.Parsed? then Parsed(Entry(key.value, v.value), v.rest) else Failed
  }

  /** One or more entries separated by commas, and the closing brace. */
  function ReadEntries(g: Grammar, s: string): (p: Parsed<seq<Entry>>)
    ensures p.Parsed? ==> |p.rest| < |s|
    decreases |s|
  {
    var first := ReadEntry(g, s);
    if first.Failed? then Failed
    else
      var after := SkipBlanks(g, first.rest);
      if after == "" then Failed
      else if after[0] == '}' then Parsed([first.value], after[1..])
      else if after[0] == ',' then
        var more := ReadEntries(g, after[1..]);
        if more.Parsed? then Parsed([first.value] + more.value, more.rest) else Failed
      else Failed
  }

  datatype Statement = Statement(kind: string, key: Value, properties: seq<Entry>)

  function ReadTail(g: Grammar, kind: string, s: string): Option<Statement> {
    var key := ReadValue(g, s);
    if key.Failed? then None
    else
      var setting := Expect(key.rest, SETTING);
      if setting.Failed? then None
      else
        var es := ReadEntries(g, setting.rest);
        if es.Parsed? && es.rest == "" then Some(Statement(kind, key.value, es.value)) else None
  }

  /** `MERGE (n:Label {name: value}) SET n += {key: value, ...}` and nothing else. */
  function ReadStatement(g: Grammar, s: string): Option<Statement> {
    var opening := Expect(s, OPENING);
    if opening.Failed? then None
    else
      var kind := ReadName(g, SkipBlanks(g, opening.rest));
      if kind.Failed? then None
      else
        var keyed := Expect(kind.rest, KEYED);
        if keyed.Failed? then None else ReadTail(g, kind.value, keyed.rest)
  }

  // ---------------------------------------------------------------- the round trip

  predicate KeysAreNames(g: Grammar, es: seq<Entry>) { forall e :: e in es ==> IsName(g, e.key) }

  lemma NameReadsBack(g: Grammar, name: string, rest: string)
    requires Fit(g)
    requires IsName(g, name) && (rest == "" || !g.namePart(rest[0]))
    ensures ReadName(g, SkipBlanks(g, name + rest)) == Parsed(name, rest)
  {
    SpanStops(name, rest, g.namePart);
    assert (name + rest)[|name|..] == rest;
  }

  lemma EntryUnfolds(g: Grammar, key: string, v: Value, value: string, rest: string)
    requires Fit(g)
    requires ReadName(g, SkipBlanks(g, key + (": " + value))) == Parsed(key, ": " + value)
    requires SkipBlanks(g, value) == value && ReadValue(g, value) == Parsed(v, rest)
    ensures ReadEntry(g, key + (": " + value)) == Parsed(Entry(key, v), rest)
  {
    AfterColon(g, value);
  }

  lemma AfterColon(g: Grammar, value: string)
    requires Fit(g) && SkipBlanks(g, value) == value
    ensures SkipBlanks(g, ": " + value) == ": " + value && (": " + value)[0] == ':'
    ensures SkipBlanks(g, (": " + value)[1..]) == value
  {
    assert (": " + value)[1..] == " " + value && (" " + value)[1..] == value;
  }

  lemma EntryReadsBack(g: Grammar, e: Entry, rest: string)
    requires Fit(g)
    requires IsName(g, e.key) && Delimited(g, rest)
    ensures ReadEntry(g, PrintEntry(e) + rest) == Parsed(e, rest)
  {
    var value := PrintValue(e.value) + rest;
    assert PrintEntry(e) + rest == e.key + (": " + value);
    NameReadsBack(g, e.key, ": " + value);
    PrintedStarts(g, e.value);
    PrintedValueReadsBack(g, e.value, rest);
    EntryUnfolds(g, e.key, e.value, value, rest);
  }

  lemma LastEntryUnfolds(g: Grammar, first: string, e: Entry, rest: string)
    requires Fit(g)
    requires ReadEntry(g, first + ("}" + rest)) == Parsed(e, "}" + rest)
    ensures ReadEntries(g, first + ("}" + rest)) == Parsed([e], rest)
  {
    assert ("}" + rest)[1..] == rest;
  }

  lemma LeadingBlank(g: Grammar, tail: string)
    requires Fit(g)
    ensures ReadEntries(g, " " + tail) == ReadEntries(g, tail)
  {
    assert (" " + tail)[1..] == tail;
    assert SkipBlanks(g, " " + tail) == SkipBlanks(g, tail);
  }

  /** After an entry and a comma, the rest is read on its own. */
  lemma NextEntryUnfolds(g: Grammar, first: string, e: Entry, tail: string)
    requires Fit(g)
    requires ReadEntry(g, first + (", " + tail)) == Parsed(e, ", " + tail)
    ensures ReadEntries(g, first + (", " + tail))
         == if ReadEntries(g, tail).Parsed? then Parsed([e] + ReadEntries(g, tail).value, ReadEntries(g, tail).rest)
            else Failed
  {
    LeadingBlank(g, tail);
    assert (", " + tail)[1..] == " " + tail;
  }

  /** Printed entries and what closes them. */
  function Closed(es: seq<Entry>, closing: string): string { PrintEntries(es) + closing }

  lemma EntriesStep(es: seq<Entry>, closing: string)
    requires |es| > 1
    ensures Closed(es, closing) == PrintEntry(es[0]) + (", " + Closed(es[1..], closing))
  {
    Regroup(PrintEntry(es[0]), ", ", PrintEntries(es[1..]), closing);
  }

  lemma NextEntryReadsBack(g: Grammar, e: Entry, es: seq<Entry>, tail: string, rest: string)
    requires Fit(g)
    requires IsName(g, e.key) && ReadEntries(g, tail) == Parsed(es, rest)
    ensures ReadEntries(g, PrintEntry(e) + (", " + tail)) == Parsed([e] + es, rest)
  {
    EntryReadsBack(g, e, ", " + tail);
    NextEntryUnfolds(g, PrintEntry(e), e, tail);
  }

  lemma OneEntryReadsBack(g: Grammar, es: seq<Entry>, rest: string)
    requires Fit(g) && |es| == 1 && IsName(g, es[0].key)
    ensures ReadEntries(g, Closed(es, "}" + rest)) == Parsed(es, rest)
  {
    EntryReadsBack(g, es[0], "}" + rest);
    LastEntryUnfolds(g, PrintEntry(es[0]), es[0], rest);
    assert es == [es[0]];
  }

  lemma MoreEntriesReadBack(g: Grammar, es: seq<Entry>, rest: string)
    requires Fit(g) && |es| > 1 && IsName(g, es[0].key)
    requires ReadEntries(g, Closed(es[1..], "}" + rest)) == Parsed(es[1..], rest)
    ensures ReadEntries(g, Closed(es, "}" + rest)) == Parsed(es, rest)
  {
    NextEntryReadsBack(g, es[0], es[1..], Closed(es[1..], "}" + rest), rest);
    EntriesStep(es, "}" + rest);
    assert [es[0]] + es[1..] == es;
  }

  lemma {:induction false} EntriesReadBack(g: Grammar, es: seq<Entry>, rest: string)
    requires Fit(g)
    requires es != [] && KeysAreNames(g, es)
    ensures ReadEntries(g, Closed(es, "}" + rest)) == Parsed(es, rest)
  {
    assert IsName(g, es[0].key);
    if |es| == 1 {
      OneEntryReadsBack(g, es, rest);
    } else {
      EntriesReadBack(g, es[1..], rest);
      MoreEntriesReadBack(g, es, rest);
    }
  }

  // ---------------------------------------------------------------- only plain names are read back

  /** What stands between the backquotes of a quoted name. */
  function Doubled(name: string): string {
    if name == "" then "" else (if name[0] == '`' then "``" else [name[0]]) + Doubled(name[1..])
  }

  lemma {:induction false} QuotedIsDoubled(s: string)
    requires ReadQuoted(s).Parsed?
    ensures s == Doubled(ReadQuoted(s).value) + ("`" + ReadQuoted(s).rest)
  {
    if s[0] != '`' {
      QuotedIsDoubled(s[1..]);
      assert s == [s[0]] + s[1..];
    } else if |s| >= 2 && s[1] == '`' {
      QuotedIsDoubled(s[2..]);
      assert s == "``" + s[2..];
    } else {
      assert s == "`" + s[1..];
    }
  }

  /** Doubling moves no character forward. */
  lemma {:induction false} DoubledComesFrom(name: string, p: nat) returns (j: nat)
    requires p < |Doubled(name)|
    ensures j < |name| && j <= p && Doubled(name)[p] == name[j]
  {
    var head := if name[0] == '`' then "``" else [name[0]];
    if p < |head| {
      j := 0;
    } else {
      j := DoubledComesFrom(name[1..], p - |head|);
      j := j + 1;
    }
  }

  lemma {:induction false} DoubledIsLonger(name: string)
    ensures |Doubled(name)| >= |name|
  {
    if name != "" {
      DoubledIsLonger(name[1..]);
    }
  }

  /** If a text starts with blanks and a backquoted name, and also with that name itself, all it reads
      is blanks and backquotes. */
  lemma {:induction false} SelfQuoting(g: Grammar, s: string, skip: nat, name: string, i: nat)
    requires skip < |s| && (forall k :: 0 <= k < skip ==> g.blank(s[k])) && s[skip] == '`'
    requires Doubled(name) + "`" <= s[skip + 1..] && name <= s
    requires i <= skip + 1 + |Doubled(name)| < |s|
    ensures g.blank(s[i]) || s[i] == '`'
    decreases i
  {
    if skip < i <= skip + |Doubled(name)| {
      var p := i - skip - 1;
      var j := DoubledComesFrom(name, p);
      assert s[skip + 1..][p] == (Doubled(name) + "`")[p] == name[j];
      assert name[j] == s[j];
      SelfQuoting(g, s, skip, name, j);
    } else if i > skip {
      assert s[skip + 1..][|Doubled(name)|] == (Doubled(name) + "`")[|Doubled(name)|];
    }
  }

  lemma {:induction false} BlanksSkipped(g: Grammar, s: string)
    ensures |SkipBlanks(g, s)| <= |s| && s[|s| - |SkipBlanks(g, s)|..] == SkipBlanks(g, s)
    ensures forall k :: 0 <= k < |s| - |SkipBlanks(g, s)| ==> g.blank(s[k])
  {
    if s != "" && g.blank(s[0]) {
      BlanksSkipped(g, s[1..]);
    }
  }

  /** A text read as the name it starts with is a plain name, when a character that is neither blank
      nor backquote follows it, at once or after one more. */
  lemma ReadAsItself(g: Grammar, name: string, next: string)
    requires Fit(g) && |next| >= 2
    requires exists k | 0 <= k < 2 :: !g.blank(next[k]) && next[k] != '`'
    requires var p := ReadName(g, SkipBlanks(g, name + next)); p.Parsed? && p.value == name
    ensures IsName(g, name)
  {
    var s := name + next;
    var text := SkipBlanks(g, s);
    BlanksSkipped(g, s);
    if text != "" && text[0] == '`' {
      var skip := |s| - |text|;
      QuotedIsDoubled(text[1..]);
      DoubledIsLonger(name);
      assert s[skip] == text[0] && s[skip + 1..] == text[1..];
      var k :| 0 <= k < 2 && !g.blank(next[k]) && next[k] != '`';
      assert s[|name| + k] == next[k];
      SelfQuoting(g, s, skip, name, |name| + k);
    } else {
      SpanHolds(text, g.namePart);
    }
  }

  lemma KeyInFront(key: string, value: string, rest: string)
    ensures (key + ": " + value) + rest == key + (": " + (value + rest))
    ensures |": " + (value + rest)| >= 2 && (": " + (value + rest))[0] == ':'
  {
  }

  lemma KeyReadIsName(g: Grammar, e: Entry, rest: string)
    requires Fit(g)
    requires var p := ReadEntry(g, PrintEntry(e) + rest); p.Parsed? && p.value.key == e.key
    ensures IsName(g, e.key)
  {
    var next := ": " + (PrintValue(e.value) + rest);
    KeyInFront(e.key, PrintValue(e.value), rest);
    ReadAsItself(g, e.key, next);
  }

  lemma {:induction false} KeysReadAreNames(g: Grammar, es: seq<Entry>, rest: string)
    requires Fit(g) && es != []
    requires var p := ReadEntries(g, Closed(es, "}" + rest)); p.Parsed? && p.value == es
    ensures KeysAreNames(g, es)
  {
    if |es| == 1 {
      KeyReadIsName(g, es[0], "}" + rest);
    } else {
      var more := es[1..];
      var tail := Closed(more, "}" + rest);
      EntriesStep(es, "}" + rest);
      assert ReadEntry(g, PrintEntry(es[0]) + (", " + tail)).value == es[0];
      KeyReadIsName(g, es[0], ", " + tail);
      EntryReadsBack(g, es[0], ", " + tail);
      NextEntryUnfolds(g, PrintEntry(es[0]), es[0], tail);
      assert ([es[0]] + ReadEntries(g, tail).value)[1..] == ReadEntries(g, tail).value;
      KeysReadAreNames(g, more, rest);
    }
  }

  lemma {:induction false} PutAllNonEmpty(es: seq<Entry>, more: seq<Entry>)
    requires es != []
    ensures PutAll(es, more) != []
  {
    if more != [] {
      PutAllNonEmpty(es, more[..|more| - 1]);
    }
  }

  lemma TailUnfolds(g: Grammar, kind: string, key: Value, keyText: string, entries: string, es: seq<Entry>)
    requires Fit(g)
    requires ReadValue(g, keyText + (SETTING + entries)) == Parsed(key, SETTING + entries)
    requires ReadEntries(g, entries) == Parsed(es, "")
    ensures ReadTail(g, kind, keyText + (SETTING + entries)) == Some(Statement(kind, key, es))
  {
    assert (SETTING + entries)[|SETTING|..] == entries;
  }

  function Tail(o: HoneyNode): string {
    PrintValue(VText(o.name)) + (SETTING + Closed(Properties(o), "}" + ""))
  }

  lemma TailReadsBack(g: Grammar, o: HoneyNode)
    requires Fit(g)
    requires KeysAreNames(g, Properties(o))
    ensures ReadTail(g, o.kind, Tail(o)) == Some(Statement(o.kind, VText(o.name), Properties(o)))
  {
    var entries := Closed(Properties(o), "}" + "");
    PrintedValueReadsBack(g, VText(o.name), SETTING + entries);
    PutAllNonEmpty(OwnFields(o), o.attributes);
    EntriesReadBack(g, Properties(o), "");
    TailUnfolds(g, o.kind, VText(o.name), PrintValue(VText(o.name)), entries, Properties(o));
  }

  lemma BodyParts(o: HoneyNode)
    ensures Body(o) == OPENING + (o.kind + (KEYED + Tail(o)))
  {
  }

  lemma HeadUnfolds(g: Grammar, kind: string, tail: string)
    requires Fit(g)
    requires IsName(g, kind)
    ensures ReadStatement(g, OPENING + (kind + (KEYED + tail))) == ReadTail(g, kind, tail)
  {
    NameReadsBack(g, kind, KEYED + tail);
    assert (OPENING + (kind + (KEYED + tail)))[|OPENING|..] == kind + (KEYED + tail);
    assert (KEYED + tail)[|KEYED|..] == tail;
  }


  lemma TailReadIsNamed(g: Grammar, o: HoneyNode)
    requires Fit(g) && ReadTail(g, o.kind, Tail(o)) == Some(Statement(o.kind, VText(o.name), Properties(o)))
    ensures KeysAreNames(g, Properties(o))
  {
    var entries := Closed(Properties(o), "}" + "");
    PrintedValueReadsBack(g, VText(o.name), SETTING + entries);
    assert (SETTING + entries)[|SETTING|..] == entries;
    PutAllNonEmpty(OwnFields(o), o.attributes);
    KeysReadAreNames(g, Properties(o), "");
  }

  lemma KindIsReadFirst(g: Grammar, text: string)
    requires ReadStatement(g, OPENING + text).Some?
    ensures var p := ReadName(g, SkipBlanks(g, text));
      p.Parsed? && p.value == ReadStatement(g, OPENING + text).value.kind
  {
    assert (OPENING + text)[|OPENING|..] == text;
  }

  lemma KindReadIsName(g: Grammar, kind: string, tail: string)
    requires Fit(g)
    requires var p := ReadStatement(g, OPENING + (kind + (KEYED + tail))); p.Some? && p.value.kind == kind
    ensures IsName(g, kind)
  {
    KindIsReadFirst(g, kind + (KEYED + tail));
    KeyedFollows(tail);
    ReadAsItself(g, kind, KEYED + tail);
  }

  lemma KeyedFollows(tail: string)
    ensures |KEYED + tail| >= 2 && (KEYED + tail)[1] == '{'
  {
  }

  /** The statement says what was planned - label, merge key and every property, in order - exactly
      when the label and the property keys are names that need no backquotes, whatever the grammar
      counts as a letter.  The values may be anything. */
  lemma StatementReadsBackIff(g: Grammar, o: HoneyNode)
    requires Fit(g)
    ensures ReadStatement(g, Body(o)) == Some(Statement(o.kind, VText(o.name), Properties(o)))
            <==> IsName(g, o.kind) && KeysAreNames(g, Properties(o))
  {
    BodyParts(o);
    if IsName(g, o.kind) && KeysAreNames(g, Properties(o)) {
      HeadUnfolds(g, o.kind, Tail(o));
      TailReadsBack(g, o);
    } else if ReadStatement(g, Body(o)) == Some(Statement(o.kind, VText(o.name), Properties(o))) {
      KindReadIsName(g, o.kind, Tail(o));
      HeadUnfolds(g, o.kind, Tail(o));
      TailReadIsNamed(g, o);
    }
  }
}
