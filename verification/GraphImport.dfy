/** Running a list of Cypher queries, and importing a file of statements separated by semicolons. */
module GraphImport {
  import opened Text
  import opened Escaping
  import opened Cypher
  import opened CypherStatements

  // ---------------------------------------------------------------- running queries

  /** Python's `s.rstrip(";")`. */
  function DropSemicolons(s: string): string {
    if s != "" && s[|s| - 1] == ';' then DropSemicolons(s[..|s| - 1]) else s
  }

  function Cleaned(t: CharTable, query: string): string { DropSemicolons(Strip(t, query)) }

  /** The statements handed to the database: each query cleaned, the blank ones left out. */
  function Ran(t: CharTable, queries: seq<string>): seq<string> {
    if queries == [] then []
    else
      var n := |queries| - 1;
      Ran(t, queries[..n]) + (if Cleaned(t, queries[n]) == "" then [] else [Cleaned(t, queries[n])])
  }

  /** How many of the first `n` runs did not raise. */
  function Successes(raises: nat -> bool, n: nat): nat {
    if n == 0 then 0 else Successes(raises, n - 1) + (if raises(n - 1) then 0 else 1)
  }

  /** It counts each statement that did not raise once. */
  lemma SuccessesAre(raises: nat -> bool, n: nat)
    ensures Successes(raises, n) == |set k: nat | k < n && !raises(k)|
  {
    CountsOnce((k: nat) => !raises(k), (k: nat) => Successes(raises, k), n);
    assert Below((k: nat) => !raises(k), n) == set k: nat | k < n && !raises(k);
  }

  /** A cleaned query is what stands in the query between white space, without the semicolons at its end. */
  lemma CleanedIs(t: CharTable, query: string)
    ensures exists i, j :: 0 <= i <= j <= |query| && IsCleaned(t, query, i, j)
  {
    var left := StripLeft(t, query);
    var i := |query| - |left|;
    CleanedStarts(t, query);
    RightIsDropped(t, left);
    StripIsTrimmed(t, query);
    var j := i + |Cleaned(t, query)|;
    assert left == query[i..] && Cleaned(t, query) == left[..j - i] == query[i..j];
    forall k | j <= k < |query| ensures query[k] == ';' || t.isSpace(query[k]) {
      assert left[k - i] == query[k];
    }
    assert i < j ==> query[i] == Cleaned(t, query)[0] == left[0] && query[j - 1] == Cleaned(t, query)[j - i - 1];
    StripLeftIsSuffix(t, query);
    assert IsCleaned(t, query, i, j);
  }

  lemma CleanedStarts(t: CharTable, query: string)
    ensures var left := StripLeft(t, query);
      && |left| <= |query| && left == query[|query| - |left|..] && AllSpace(t, query[..|query| - |left|])
  {
    StripLeftIsSuffix(t, query);
    StripLeftDrops(t, query);
  }

  /** What is dropped at the right: white space, then semicolons. */
  lemma RightIsDropped(t: CharTable, left: string)
    ensures var d := DropSemicolons(StripRight(t, left));
      && |d| <= |left| && d == left[..|d|] && (d == "" || d[|d| - 1] != ';')
      && forall k :: |d| <= k < |left| ==> left[k] == ';' || t.isSpace(left[k])
  {
    StripRightDrops(t, left);
    SemicolonsDropped(StripRight(t, left));
  }

  predicate IsCleaned(t: CharTable, query: string, i: int, j: int)
    requires 0 <= i <= j <= |query|
  {
    && Cleaned(t, query) == query[i..j]
    && AllSpace(t, query[..i]) && (i < j ==> !t.isSpace(query[i]) && query[j - 1] != ';')
    && forall k :: j <= k < |query| ==> query[k] == ';' || t.isSpace(query[k])
  }

  lemma {:induction false} SemicolonsDropped(s: string)
    ensures var d := DropSemicolons(s);
      && |d| <= |s| && d == s[..|d|] && (d == "" || d[|d| - 1] != ';')
      && forall k :: |d| <= k < |s| ==> s[k] == ';'
  {
    if s != "" && s[|s| - 1] == ';' { SemicolonsDropped(s[..|s| - 1]); }
  }

  lemma {:induction false} StripLeftDrops(t: CharTable, s: string)
    ensures |StripLeft(t, s)| <= |s| && AllSpace(t, s[..|s| - |StripLeft(t, s)|])
  {
    if s != "" && t.isSpace(s[0]) {
      StripLeftDrops(t, s[1..]);
      assert s[..|s| - |StripLeft(t, s)|] == [s[0]] + s[1..][..|s| - 1 - |StripLeft(t, s)|];
    }
  }

  lemma {:induction false} StripRightDrops(t: CharTable, s: string)
    ensures var d := StripRight(t, s);
      |d| <= |s| && d == s[..|d|] && forall k :: |d| <= k < |s| ==> t.isSpace(s[k])
  {
    if s != "" && t.isSpace(s[|s| - 1]) { StripRightDrops(t, s[..|s| - 1]); }
  }

  function Shortened(s: string): string { if |s| <= 80 then s else s[..80] }

  /** What the error list names: the statements that raised, cut to 80 characters, in order. */
  function Failures(statements: seq<string>, raises: nat -> bool): seq<string> {
    if statements == [] then []
    else
      var n := |statements| - 1;
      Failures(statements[..n], raises) + (if raises(n) then [Shortened(statements[n])] else [])
  }

  /** The error list names exactly the statements that raised, whole or by their first 80 characters. */
  lemma {:induction false} FailuresAre(statements: seq<string>, raises: nat -> bool)
    ensures forall f :: f in Failures(statements, raises)
              <==> exists k: nat :: k < |statements| && raises(k) && IsShort(f, statements[k])
  {
    if statements != [] {
      var n := |statements| - 1;
      FailuresAre(statements[..n], raises);
      forall f ensures f in Failures(statements, raises)
                  <==> exists k: nat :: k < |statements| && raises(k) && IsShort(f, statements[k])
      {
        assert f in Failures(statements, raises) <==> f in Failures(statements[..n], raises) || (raises(n) && f == Shortened(statements[n]));
        if k: nat :| k < n && raises(k) && IsShort(f, statements[..n][k]) {
          assert IsShort(f, statements[k]);
        }
        if k: nat :| k < |statements| && raises(k) && IsShort(f, statements[k]) {
          assert k < n ==> IsShort(f, statements[..n][k]);
        }
      }
    }
  }

  predicate IsShort(f: string, statement: string) {
    f <= statement && (if |statement| <= 80 then f == statement else |f| == 80)
  }

  datatype Report = Report(success: bool, executed: nat, errors: seq<string>)

  /** `raises(i)` says whether the database refuses the `i`th statement it is given.  `ran` is
      what it was given: a refused statement does not stop the ones after it. */
  method ExecuteQueries(t: CharTable, queries: seq<string>, raises: nat -> bool)
    returns (report: Report, ran: seq<string>)
    ensures ran == Ran(t, queries)
    ensures report.executed == Successes(raises, |ran|)
    ensures report.errors == Failures(ran, raises)
    ensures report.executed + |report.errors| == |ran|
    ensures report.success <==> report.executed == |ran|
  {
    ran := [];
    if queries == [] {
      return Report(true, 0, []), ran;
    }
    var executed := 0;
    var errors: seq<string> := [];
    for i := 0 to |queries|
      invariant ran == Ran(t, queries[..i])
      invariant executed == Successes(raises, |ran|)
      invariant errors == Failures(ran, raises)
      invariant executed + |errors| == |ran|
    {
      assert queries[..i + 1][..i] == queries[..i];
      var statement := Cleaned(t, queries[i]);
      if statement == "" {
        continue;
      }
      assert (ran + [statement])[..|ran|] == ran;
      if raises(|ran|) {
        errors := errors + [Shortened(statement)];
      } else {
        executed := executed + 1;
      }
      ran := ran + [statement];
    }
    assert queries[..|queries|] == queries;
    report := Report(errors == [], executed, errors);
  }

  // ---------------------------------------------------------------- importing a file

  /** The stripped pieces between semicolons that are not blank, each closed with a semicolon. */
  function Closed(t: CharTable, pieces: seq<string>): seq<string> {
    if pieces == [] then []
    else (if Strip(t, pieces[0]) == "" then [] else [Strip(t, pieces[0]) + ";"]) + Closed(t, pieces[1..])
  }

  function ImportQueries(t: CharTable, content: string): seq<string> {
    Closed(t, SplitOn(content, ';'))
  }

  method ImportCypherFile(t: CharTable, content: string, raises: nat -> bool)
    returns (report: Report, ran: seq<string>)
    ensures ran == Ran(t, ImportQueries(t, content))
    ensures report.errors == Failures(ran, raises) && report.executed + |report.errors| == |ran|
  {
    report, ran := ExecuteQueries(t, ImportQueries(t, content), raises);
  }

  // ---------------------------------------------------------------- what is run

  lemma {:induction false} RanFirst(t: CharTable, query: string, queries: seq<string>)
    ensures Ran(t, [query] + queries)
         == (if Cleaned(t, query) == "" then [] else [Cleaned(t, query)]) + Ran(t, queries)
  {
    var all := [query] + queries;
    if queries == [] {
      assert all[..0] == [];
    } else {
      var n := |queries| - 1;
      assert all[..n + 1] == [query] + queries[..n];
      RanFirst(t, query, queries[..n]);
    }
  }

  /** A trimmed statement with no semicolon at its end is run as it is, closed or not. */
  lemma CleanedOfClosed(t: CharTable, body: string)
    requires Trimmed(t, body) && body != "" && body[|body| - 1] != ';' && !t.isSpace(';')
    ensures Cleaned(t, body + ";") == body
  {
    StripOfTrimmed(t, body + ";");
    assert (body + ";")[..|body|] == body;
    assert DropSemicolons(body + ";") == DropSemicolons(body);
  }

  lemma {:induction false} RanOfPieces(t: CharTable, pieces: seq<string>, s: string)
    requires !t.isSpace(';') && forall p :: p in pieces ==> ';' !in p
    requires s in Ran(t, Closed(t, pieces))
    ensures ';' !in s
  {
    if pieces != [] {
      var piece := Strip(t, pieces[0]);
      StripIsTrimmed(t, pieces[0]);
      if piece == "" {
        assert Closed(t, pieces) == Closed(t, pieces[1..]);
      } else {
        assert Closed(t, pieces) == [piece + ";"] + Closed(t, pieces[1..]);
        RanFirst(t, piece + ";", Closed(t, pieces[1..]));
        assert piece[|piece| - 1] in piece;
        CleanedOfClosed(t, piece);
      }
      if s != piece {
        RanOfPieces(t, pieces[1..], s);
      }
    }
  }

  /** No statement an import runs holds a semicolon, whatever the file. */
  lemma ImportedHaveNoSemicolon(t: CharTable, content: string, s: string)
    requires !t.isSpace(';') && s in Ran(t, ImportQueries(t, content))
    ensures ';' !in s
  {
    SplitPiecesHaveNone(content, ';');
    RanOfPieces(t, SplitOn(content, ';'), s);
  }

  /** The file: each statement, a semicolon, and the blank space that follows it. */
  function Joined(bodies: seq<string>, gaps: seq<string>): string
    requires |gaps| == |bodies|
  {
    if bodies == [] then "" else bodies[0] + ";" + gaps[0] + Joined(bodies[1..], gaps[1..])
  }

  predicate Runnable(t: CharTable, body: string) {
    body != "" && Trimmed(t, body)
  }

  lemma BlankHasNone(t: CharTable, gap: string, c: char)
    requires AllSpace(t, gap) && !t.isSpace(c)
    ensures c !in gap
  {
  }

  lemma ImportFirst(t: CharTable, gap: string, body: string, rest: string)
    requires !t.isSpace(';') && AllSpace(t, gap) && Runnable(t, body) && ';' !in body
    ensures Ran(t, ImportQueries(t, gap + body + ";" + rest)) == [body] + Ran(t, ImportQueries(t, rest))
  {
    var piece := gap + body;
    BlankHasNone(t, gap, ';');
    SplitAtFirst(piece, ';', rest);
    StripLeftOfBlank(t, gap, body);
    StripOfTrimmed(t, body);
    assert Strip(t, piece) == body;
    assert ImportQueries(t, piece + ";" + rest) == [body + ";"] + ImportQueries(t, rest);
    RanFirst(t, body + ";", ImportQueries(t, rest));
    CleanedOfClosed(t, body);
  }

  lemma ImportOfBlank(t: CharTable, gap: string)
    requires !t.isSpace(';') && AllSpace(t, gap)
    ensures Ran(t, ImportQueries(t, gap)) == []
  {
    BlankHasNone(t, gap, ';');
    StripLeftOfBlank(t, gap, "");
    assert gap + "" == gap;
    assert Closed(t, [gap]) == [];
  }

  predicate AllBlank(t: CharTable, gaps: seq<string>) { forall g :: g in gaps ==> AllSpace(t, g) }

  predicate AllRunnable(t: CharTable, bodies: seq<string>) { forall b :: b in bodies ==> Runnable(t, b) }

  predicate SemicolonFree(bodies: seq<string>) { forall b :: b in bodies ==> ';' !in b }

  lemma {:induction false} ImportRunsJoined(t: CharTable, gap: string, bodies: seq<string>, gaps: seq<string>)
    requires !t.isSpace(';') && AllSpace(t, gap) && |gaps| == |bodies|
    requires AllBlank(t, gaps) && AllRunnable(t, bodies) && SemicolonFree(bodies)
    ensures Ran(t, ImportQueries(t, gap + Joined(bodies, gaps))) == bodies
    decreases |bodies|
  {
    if bodies == [] {
      assert gap + Joined(bodies, gaps) == gap;
      ImportOfBlank(t, gap);
    } else {
      var rest := gaps[0] + Joined(bodies[1..], gaps[1..]);
      assert gap + Joined(bodies, gaps) == gap + bodies[0] + ";" + rest;
      ImportRunsJoined(t, gaps[0], bodies[1..], gaps[1..]);
      ImportFirst(t, gap, bodies[0], rest);
      assert bodies == [bodies[0]] + bodies[1..];
    }
  }

  /** Importing a file of statements runs exactly those statements, in order, exactly when no
      statement has a semicolon of its own. */
  lemma ImportRunsTheFileIff(t: CharTable, bodies: seq<string>, gaps: seq<string>)
    requires !t.isSpace(';') && |gaps| == |bodies| && AllBlank(t, gaps) && AllRunnable(t, bodies)
    ensures Ran(t, ImportQueries(t, Joined(bodies, gaps))) == bodies <==> SemicolonFree(bodies)
  {
    var content := Joined(bodies, gaps);
    if SemicolonFree(bodies) {
      ImportRunsJoined(t, "", bodies, gaps);
      assert "" + content == content;
    }
    if Ran(t, ImportQueries(t, content)) == bodies {
      forall b | b in bodies ensures ';' !in b {
        ImportedHaveNoSemicolon(t, content, b);
      }
    }
  }

  // ---------------------------------------------------------------- honey objects

  predicate ValueMentions(v: Value)
    decreases v
  {
    match v
    case VBool(b) => false
    case VInt(n) => false
    case VText(s) => ';' in s
    case VList(items) => exists i | 0 <= i < |items| :: ValueMentions(items[i])
  }

  /** Some text of the object holds a semicolon. */
  predicate Mentions(o: HoneyNode) {
    ';' in o.kind || ';' in o.name || exists e | e in Properties(o) :: ';' in e.key || ValueMentions(e.value)
  }

  lemma {:induction false} EscapingKeepsSemicolons(s: string)
    ensures ';' in EscapeAll(s, QUOTED) <==> ';' in s
  {
    if s != "" {
      EscapingKeepsSemicolons(s[1..]);
      assert ';' in s <==> s[0] == ';' || ';' in s[1..];
    }
  }

  lemma {:induction false} PrintedValueMentions(v: Value)
    ensures ';' in PrintValue(v) <==> ValueMentions(v)
    decreases v
  {
    match v
    case VBool(b) =>
    case VInt(n) =>
      if ';' in NatToString(if n < 0 then -n else n) {
        assert false;
      }
    case VText(s) =>
      QuoteIsOnePass(s);
      EscapingKeepsSemicolons(s);
    case VList(items) =>
      PrintedItemsMention(items);
  }

  lemma {:induction false} PrintedItemsMention(items: seq<Value>)
    ensures ';' in PrintItems(items) <==> exists i :: 0 <= i < |items| && ValueMentions(items[i])
    decreases items
  {
    if items != [] {
      PrintedValueMentions(items[0]);
      if |items| > 1 {
        var more := items[1..];
        PrintedItemsMention(more);
        assert forall i :: 0 <= i < |more| ==> more[i] == items[i + 1];
        assert ';' in PrintItems(items) <==> ';' in PrintValue(items[0]) || ';' in PrintItems(more);
        if i :| 0 <= i < |items| && ValueMentions(items[i]) {
          assert i > 0 ==> ValueMentions(more[i - 1]);
        }
      }
    }
  }

  predicate EntriesMention(es: seq<Entry>) {
    exists e | e in es :: ';' in e.key || ValueMentions(e.value)
  }

  lemma PrintedEntryMentions(e: Entry)
    ensures ';' in PrintEntry(e) <==> ';' in e.key || ValueMentions(e.value)
  {
    PrintedValueMentions(e.value);
  }

  lemma {:induction false} PrintedEntriesMention(es: seq<Entry>)
    ensures ';' in PrintEntries(es) <==> EntriesMention(es)
  {
    if es != [] {
      PrintedEntryMentions(es[0]);
      assert es == [es[0]] + es[1..];
      if |es| > 1 {
        PrintedEntriesMention(es[1..]);
      }
    }
  }

  lemma InFive(a: string, b: string, c: string, d: string, e: string, x: char)
    ensures x in a + b + c + d + e <==> x in a || x in b || x in c || x in d || x in e
  {
  }

  lemma BodyHolds(o: HoneyNode)
    ensures ';' in Body(o)
       <==> ';' in o.kind || ';' in PrintValue(VText(o.name)) || ';' in PrintEntries(Properties(o))
  {
    var named, listed := PrintValue(VText(o.name)), PrintEntries(Properties(o));
    InFive(OPENING, o.kind, KEYED, named, SETTING + listed + "}", ';');
    InFive(SETTING, listed, "}", "", "", ';');
    assert Body(o) == OPENING + o.kind + KEYED + named + (SETTING + listed + "}");
    assert SETTING + listed + "}" == SETTING + listed + "}" + "" + "";
  }

  lemma BodyMentions(o: HoneyNode)
    ensures ';' in Body(o) <==> Mentions(o)
  {
    PrintedValueMentions(VText(o.name));
    PrintedEntriesMention(Properties(o));
    BodyHolds(o);
    assert Mentions(o) <==> ';' in o.kind || ';' in o.name || EntriesMention(Properties(o));
  }

  function Bodies(objects: seq<HoneyNode>): (r: seq<string>)
    ensures |r| == |objects|
  {
    seq(|objects|, i requires 0 <= i < |objects| => Body(objects[i]))
  }

  /** What `build_deployment` lists. */
  function Queries(objects: seq<HoneyNode>): (r: seq<string>)
    ensures |r| == |objects|
  {
    seq(|objects|, i requires 0 <= i < |objects| => ToCypher(objects[i]))
  }

  /** Of the characters a statement starts, ends or is closed with, none is white space. */
  predicate Spacing(t: CharTable) {
    !t.isSpace('M') && !t.isSpace('}') && !t.isSpace(';')
  }

  lemma BodyIsRunnable(t: CharTable, o: HoneyNode)
    requires Spacing(t)
    ensures Runnable(t, Body(o)) && Body(o)[|Body(o)| - 1] == '}'
  {
    var b := Body(o);
    assert b[0] == 'M' && b[|b| - 1] == '}';
  }

  lemma PlannedQueryRuns(t: CharTable, o: HoneyNode)
    requires Spacing(t)
    ensures Cleaned(t, ToCypher(o)) == Body(o) && Body(o) != ""
  {
    BodyIsRunnable(t, o);
    CleanedOfClosed(t, Body(o));
  }

  lemma LastPlanned(objects: seq<HoneyNode>)
    requires objects != []
    ensures var n := |objects| - 1;
      && Queries(objects)[..n] == Queries(objects[..n])
      && Queries(objects)[n] == ToCypher(objects[n])
      && Bodies(objects) == Bodies(objects[..n]) + [Body(objects[n])]
  {
  }

  /** Running the planned queries runs one statement an object, in order, whatever its text. */
  lemma {:induction false} PlannedQueriesRunEach(t: CharTable, objects: seq<HoneyNode>)
    requires Spacing(t)
    ensures Ran(t, Queries(objects)) == Bodies(objects)
  {
    if objects != [] {
      var n := |objects| - 1;
      PlannedQueriesRunEach(t, objects[..n]);
      PlannedQueryRuns(t, objects[n]);
      LastPlanned(objects);
    }
  }

  /** Writing the planned statements to a file and importing it runs the same statements, in
      order, exactly when no text of any object holds a semicolon. */
  lemma ImportRunsTheObjectsIff(t: CharTable, objects: seq<HoneyNode>, gaps: seq<string>)
    requires Spacing(t) && |gaps| == |objects| && AllBlank(t, gaps)
    ensures Ran(t, ImportQueries(t, Joined(Bodies(objects), gaps))) == Ran(t, Queries(objects))
            <==> forall o :: o in objects ==> !Mentions(o)
  {
    var bodies := Bodies(objects);
    forall b | b in bodies ensures Runnable(t, b) {
      var i :| 0 <= i < |bodies| && bodies[i] == b;
      BodyIsRunnable(t, objects[i]);
    }
    PlannedQueriesRunEach(t, objects);
    ImportRunsTheFileIff(t, bodies, gaps);
    forall i | 0 <= i < |objects| ensures ';' in bodies[i] <==> Mentions(objects[i]) {
      BodyMentions(objects[i]);
    }
    if SemicolonFree(bodies) {
      forall o | o in objects ensures !Mentions(o) {
        var i :| 0 <= i < |objects| && objects[i] == o;
        assert ';' !in bodies[i];
      }
    } else {
      var b :| b in bodies && ';' in b;
      var i :| 0 <= i < |bodies| && bodies[i] == b;
      assert Mentions(objects[i]);
    }
  }
}
