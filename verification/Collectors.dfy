/** Where the agent's events come from: the tail of a file of JSON lines, and the Windows
    Security log read backwards. */
module Collectors {
  import opened Text

  const WATCHED: set<int> := {4624, 4625, 4768, 4769}

  /** An event ready to send.  `dated` is false when the collector stamped it itself. */
  datatype Collected = Collected(
    eventId: int, actor: string, target: string, severity: string, source: string,
    description: string, timestamp: string, dated: bool, agentId: string)

  function SeverityFor(eventId: int): string {
    if eventId == 4769 then "high" else if eventId == 4625 then "medium" else "info"
  }

  // ---------------------------------------------------------------- normalising a payload

  /** What `int(...)` makes of a value: a number, a refusal the code catches, or an overflow (an
      infinite float), which it does not. */
  datatype Number = Whole(value: int) | NotWhole | Overflows

  /** A JSON value as the code looks at it: `Falsy`, or its `str` (`None`: it raises, as for deep
      nesting) and its `int`. */
  datatype Field = Falsy | Truthy(text: Option<string>, number: Number)

  type Payload = map<string, Field>

  /** What becomes of a payload or a line: skipped, an event, or an exception that leaves the poll. */
  datatype Reading = Skipped | Read(event: Collected) | Raised

  /** Python's `a or b or ...` over the payload's keys. */
  function Pick(raw: Payload, keys: seq<string>): Field {
    if keys == [] then Falsy
    else if keys[0] in raw && raw[keys[0]].Truthy? then raw[keys[0]]
    else Pick(raw, keys[1..])
  }

  function TextOr(f: Field, default: string): Option<string> { if f.Truthy? then f.text else Some(default) }

  /** The event of a payload whose id is watched and whose target and actor are known. */
  function Describe(raw: Payload, eventId: int, target: string, actor: string, agentId: string, now: string): Reading {
    var description :=
      TextOr(Pick(raw, ["description", "Message"]),
             "Security event " + IntToString(eventId) + " target=" + Or(target, "unknown"));
    var time := Pick(raw, ["timestamp", "TimeCreated"]);
    var source := TextOr(Pick(raw, ["source"]), "Security");
    var severity := TextOr(Pick(raw, ["severity"]), SeverityFor(eventId));
    if description.None? || TextOr(time, now).None? || source.None? || severity.None? then Raised
    else
      Read(Collected(eventId, Or(actor, "unknown"), Or(target, "unknown"), severity.value, source.value,
                     description.value, TextOr(time, now).value, time.Truthy?, agentId))
  }

  function Normalize(raw: Payload, agentId: string, now: string): (r: Reading)
    ensures r.Read? ==> r.event.eventId in WATCHED && r.event.actor != "" && r.event.target != ""
    ensures r.Read? ==> r.event.agentId == agentId
  {
    var id := Pick(raw, ["event_id", "EventID"]);
    var number := if id.Truthy? then id.number else Whole(0);
    if number.Overflows? then Raised
    else if number.NotWhole? || number.value !in WATCHED then Skipped
    else
      var target := TextOr(Pick(raw, ["target", "TargetUserName", "AccountName"]), "");
      var actor := TextOr(Pick(raw, ["actor", "IpAddress", "WorkstationName", "source"]), "");
      if target.None? || actor.None? then Raised
      else if target.value == "" && actor.value == "" then Skipped
      else Describe(raw, number.value, target.value, actor.value, agentId, now)
  }

  // ---------------------------------------------------------------- lines of a file

  /** What decoding a text as JSON gives: an object; something the code skips (a decode error or
      another value); or another exception, as for very long numbers and deep nesting. */
  datatype Decoded = Object(raw: Payload) | NoObject | Fails

  /** What the collector is built with: the character tables, the JSON decoder and the agent's id. */
  datatype Reader = Reader(t: CharTable, decode: string -> Decoded, agentId: string)

  function ReadLine(r: Reader, line: string, now: string): Reading {
    var text := Strip(r.t, line);
    if text == "" then Skipped
    else
      match r.decode(text)
      case Object(raw) => Normalize(raw, r.agentId, now)
      case NoObject => Skipped
      case Fails => Raised
  }

  function OneLine(r: Reader, line: string, now: string): seq<Collected> {
    if ReadLine(r, line, now).Read? then [ReadLine(r, line, now).event] else []
  }

  function ReadLines(r: Reader, lines: seq<string>, now: string): seq<Collected> {
    if lines == [] then []
    else ReadLines(r, lines[..|lines| - 1], now) + OneLine(r, lines[|lines| - 1], now)
  }

  /** The valid events of a stretch of file. */
  function Events(r: Reader, text: string, now: string): seq<Collected> {
    ReadLines(r, SplitOn(text, '\n'), now)
  }

  /** Some line raises; the time of reading does not matter to that. */
  predicate SomeRaises(r: Reader, lines: seq<string>) {
    lines != [] && (SomeRaises(r, lines[..|lines| - 1]) || ReadLine(r, lines[|lines| - 1], "").Raised?)
  }

  predicate Raises(r: Reader, text: string) { SomeRaises(r, SplitOn(text, '\n')) }

  lemma RaisesAtAnyTime(r: Reader, line: string, now: string)
    ensures ReadLine(r, line, now).Raised? <==> ReadLine(r, line, "").Raised?
  {
  }

  lemma ReadOneMore(r: Reader, lines: seq<string>, i: nat, now: string)
    requires i < |lines|
    ensures ReadLines(r, lines[..i + 1], now) == ReadLines(r, lines[..i], now) + OneLine(r, lines[i], now)
    ensures SomeRaises(r, lines[..i + 1]) <==> SomeRaises(r, lines[..i]) || ReadLine(r, lines[i], now).Raised?
  {
    assert lines[..i + 1][..i] == lines[..i];
    RaisesAtAnyTime(r, lines[i], now);
  }

  lemma {:induction false} SomeRaisesPrefix(r: Reader, lines: seq<string>, i: nat)
    requires i <= |lines| && SomeRaises(r, lines[..i])
    ensures SomeRaises(r, lines)
  {
    if i < |lines| {
      var front := lines[..|lines| - 1];
      assert front[..i] == lines[..i];
      SomeRaisesPrefix(r, front, i);
    } else {
      assert lines[..i] == lines;
    }
  }

  class FileEventCollector {
    const r: Reader
    var offset: nat

    /** Starts at the end of the file, if there is one. */
    constructor (r: Reader, file: Option<string>)
      ensures this.r == r && offset == if file.Some? then |file.value| else 0
    {
      this.r := r;
      offset := if file.Some? then |file.value| else 0;
    }

    /** The events of everything written since the last poll; from the start if the file shrank.
        A line that raises ends the poll with nothing, before the place in the file is moved. */
    method Poll(file: Option<string>, now: string) returns (events: seq<Collected>, raised: bool)
      modifies this
      ensures file.None? ==> events == [] && !raised && offset == old(offset)
      ensures file.Some? ==>
                var start := if |file.value| < old(offset) then 0 else old(offset);
                var unread := file.value[start..];
                && raised == Raises(r, unread)
                && events == (if raised then [] else Events(r, unread, now))
                && offset == (if raised then start else |file.value|)
    {
      events, raised := [], false;
      if file.None? {
        return;
      }
      var size := |file.value|;
      if size < offset {
        offset := 0;
      }
      events, raised := ReadAll(SplitOn(file.value[offset..], '\n'), now);
      if !raised {
        offset := size;
      }
    }

    /** One line: stripped, decoded, normalised. */
    method ReadNext(line: string, now: string) returns (reading: Reading)
      ensures reading == ReadLine(r, line, now)
    {
      var text := Strip(r.t, line);
      if text == "" {
        return Skipped;
      }
      var payload := r.decode(text);
      if payload.Fails? {
        return Raised;
      }
      if payload.NoObject? {
        return Skipped;
      }
      reading := Normalize(payload.raw, r.agentId, now);
    }

    /** The lines in turn, up to one that raises. */
    method ReadAll(lines: seq<string>, now: string) returns (events: seq<Collected>, raised: bool)
      ensures raised == SomeRaises(r, lines)
      ensures events == if raised then [] else ReadLines(r, lines, now)
    {
      events, raised := [], false;
      for i := 0 to |lines|
        invariant !raised && events == ReadLines(r, lines[..i], now)
        invariant !SomeRaises(r, lines[..i])
      {
        ReadOneMore(r, lines, i, now);
        var reading := ReadNext(lines[i], now);
        if reading.Raised? {
          SomeRaisesPrefix(r, lines, i + 1);
          return [], true;
        }
        if reading.Read? {
          events := events + [reading.event];
        }
      }
      assert lines[..|lines|] == lines;
    }
  }

  // ---------------------------------------------------------------- cutting a file in two

  lemma ReadLinesLast(r: Reader, lines: seq<string>, last: string, now: string)
    ensures ReadLines(r, lines + [last], now) == ReadLines(r, lines, now) + OneLine(r, last, now)
  {
    assert (lines + [last])[..|lines|] == lines;
  }

  lemma ReadLinesMore(r: Reader, a: seq<string>, rest: seq<string>, last: string, now: string)
    requires ReadLines(r, a + rest, now) == ReadLines(r, a, now) + ReadLines(r, rest, now)
    ensures ReadLines(r, (a + rest) + [last], now) == ReadLines(r, a, now) + ReadLines(r, rest + [last], now)
  {
    ReadLinesLast(r, rest, last, now);
    ReadLinesLast(r, a + rest, last, now);
    Associative(ReadLines(r, a, now), ReadLines(r, rest, now), OneLine(r, last, now));
  }

  lemma {:induction false} ReadLinesConcat(r: Reader, a: seq<string>, b: seq<string>, now: string)
    ensures ReadLines(r, a + b, now) == ReadLines(r, a, now) + ReadLines(r, b, now)
  {
    if b == [] {
      assert a + b == a;
    } else {
      var rest, last := b[..|b| - 1], b[|b| - 1];
      ReadLinesConcat(r, a, rest, now);
      assert b == rest + [last];
      Associative(a, rest, [last]);
      ReadLinesMore(r, a, rest, last, now);
    }
  }

  /** Two lists of lines run together: the last of one and the first of the other become one. */
  function Merge(pa: seq<string>, pb: seq<string>): seq<string>
    requires pa != [] && pb != []
  {
    pa[..|pa| - 1] + [pa[|pa| - 1] + pb[0]] + pb[1..]
  }

  lemma MergeBehind(x: string, pa: seq<string>, pb: seq<string>)
    requires pa != [] && pb != []
    ensures Merge([x] + pa, pb) == [x] + Merge(pa, pb)
  {
    assert ([x] + pa)[..|pa|] == [x] + pa[..|pa| - 1];
    Associative([x], pa[..|pa| - 1], [pa[|pa| - 1] + pb[0]]);
    Associative([x], pa[..|pa| - 1] + [pa[|pa| - 1] + pb[0]], pb[1..]);
  }

  lemma CutInFirst(a: string, b: string, c: char)
    requires c in a
    ensures SplitOn(a + b, c) == [UpTo(a, c)] + SplitOn(After(a, c) + b, c)
  {
    UpToInFront(a, b, c);
    CutIsWhole(a, c);
    assert After(a + b, c) == After(a, c) + b;
  }

  lemma CutInSecond(a: string, b: string, c: char)
    requires c !in a
    ensures SplitOn(a + b, c) == [a + SplitOn(b, c)[0]] + SplitOn(b, c)[1..]
  {
    if c in b {
      UpToInFront(a, b, c);
      assert After(a + b, c) == After(b, c);
      assert SplitOn(b, c)[1..] == SplitOn(After(b, c), c);
    } else {
      assert SplitOn(b, c)[1..] == [];
    }
  }

  lemma {:induction false} SplitOnConcat(a: string, b: string, c: char)
    ensures SplitOn(a + b, c) == Merge(SplitOn(a, c), SplitOn(b, c))
    decreases |a|
  {
    if c in a {
      CutIsWhole(a, c);
      CutInFirst(a, b, c);
      SplitOnConcat(After(a, c), b, c);
      MergeBehind(UpTo(a, c), SplitOn(After(a, c), c), SplitOn(b, c));
    } else {
      CutInSecond(a, b, c);
      assert SplitOn(a, c)[..0] == [];
    }
  }

  lemma {:induction false} CutIsWhole(a: string, c: char)
    requires c in a
    ensures |UpTo(a, c)| < |a| && a == UpTo(a, c) + [c] + After(a, c)
  {
    if a[0] != c {
      CutIsWhole(a[1..], c);
      assert After(a, c) == After(a[1..], c);
    }
  }

  function LastOf<T>(s: seq<T>): T requires s != [] { s[|s| - 1] }

  /** The unfinished line `a` ends with, and the line `b` starts with. */
  function Tail(a: string): string { LastOf(SplitOn(a, '\n')) }

  function Head(b: string): string { SplitOn(b, '\n')[0] }

  function Before(a: string): seq<string> { SplitOn(a, '\n')[..|SplitOn(a, '\n')| - 1] }

  function Rest(b: string): seq<string> { SplitOn(b, '\n')[1..] }

  lemma ReadOne(r: Reader, line: string, now: string)
    ensures ReadLines(r, [line], now) == OneLine(r, line, now)
  {
    assert [line][..0] == [];
  }

  lemma EventsOfFirst(r: Reader, a: string, now: string)
    ensures Events(r, a, now) == ReadLines(r, Before(a), now) + OneLine(r, Tail(a), now)
  {
  }

  lemma ReadThree(r: Reader, xs: seq<string>, y: string, zs: seq<string>, now: string)
    ensures ReadLines(r, xs + [y] + zs, now) == ReadLines(r, xs, now) + OneLine(r, y, now) + ReadLines(r, zs, now)
  {
    ReadLinesConcat(r, xs + [y], zs, now);
    ReadLinesConcat(r, xs, [y], now);
    ReadOne(r, y, now);
  }

  lemma EventsOfSecond(r: Reader, b: string, now: string)
    ensures Events(r, b, now) == OneLine(r, Head(b), now) + ReadLines(r, Rest(b), now)
  {
    ReadLinesConcat(r, [Head(b)], Rest(b), now);
    ReadOne(r, Head(b), now);
    assert [Head(b)] + Rest(b) == SplitOn(b, '\n');
  }

  lemma EventsOfBoth(r: Reader, a: string, b: string, now: string)
    ensures Events(r, a + b, now)
         == ReadLines(r, Before(a), now) + OneLine(r, Tail(a) + Head(b), now) + ReadLines(r, Rest(b), now)
  {
    SplitOnConcat(a, b, '\n');
    ReadThree(r, Before(a), Tail(a) + Head(b), Rest(b), now);
  }

  lemma EventsOfParts(r: Reader, a: string, b: string, now: string)
    ensures Events(r, a, now) == ReadLines(r, Before(a), now) + OneLine(r, Tail(a), now)
    ensures Events(r, b, now) == OneLine(r, Head(b), now) + ReadLines(r, Rest(b), now)
    ensures Events(r, a + b, now)
         == ReadLines(r, Before(a), now) + OneLine(r, Tail(a) + Head(b), now) + ReadLines(r, Rest(b), now)
  {
    EventsOfFirst(r, a, now);
    EventsOfSecond(r, b, now);
    EventsOfBoth(r, a, b, now);
  }

  // ---------------------------------------------------------------- a poll in mid-line

  lemma BlankStripsToNothing(t: CharTable, s: string)
    ensures Strip(t, s) == "" <==> AllSpace(t, s)
  {
    StripLeftIsSuffix(t, s);
    if AllSpace(t, s) {
      StripLeftOfBlank(t, s, "");
      assert s + "" == s;
    } else {
      NotBlankStripsToSome(t, s);
    }
  }

  lemma {:induction false} NotBlankStripsToSome(t: CharTable, s: string)
    requires !AllSpace(t, s)
    ensures StripLeft(t, s) != "" && !AllSpace(t, StripLeft(t, s)) && Strip(t, s) != ""
  {
    if t.isSpace(s[0]) {
      NotBlankStripsToSome(t, s[1..]);
    } else {
      StripRightOfNotBlank(t, s);
    }
  }

  lemma {:induction false} StripRightOfNotBlank(t: CharTable, s: string)
    requires !AllSpace(t, s)
    ensures StripRight(t, s) != ""
  {
    if t.isSpace(s[|s| - 1]) {
      StripRightOfNotBlank(t, s[..|s| - 1]);
    }
  }

  lemma {:induction false} StripLeftInFront(t: CharTable, a: string, b: string)
    requires !AllSpace(t, a)
    ensures StripLeft(t, a + b) == StripLeft(t, a) + b
  {
    if t.isSpace(a[0]) {
      assert (a + b)[1..] == a[1..] + b;
      StripLeftInFront(t, a[1..], b);
    }
  }

  lemma {:induction false} StripRightBehind(t: CharTable, a: string, b: string)
    requires !AllSpace(t, b)
    ensures StripRight(t, a + b) == a + StripRight(t, b)
  {
    if t.isSpace(b[|b| - 1]) {
      assert (a + b)[..|a + b| - 1] == a + b[..|b| - 1];
      StripRightBehind(t, a, b[..|b| - 1]);
    }
  }

  /** Joining two fragments neither of which is blank makes a longer text than either. */
  lemma JoinedIsLonger(t: CharTable, a: string, b: string)
    requires !AllSpace(t, a) && !AllSpace(t, b)
    ensures |Strip(t, a + b)| > |Strip(t, a)| && |Strip(t, a + b)| > |Strip(t, b)|
  {
    StripLeftInFront(t, a, b);
    StripRightBehind(t, StripLeft(t, a), b);
    StripRightIsPrefix(t, StripLeft(t, a));
    StripLeftIsSuffix(t, b);
    NotBlankStripsToSome(t, a);
    StripRightOfNotBlank(t, b);
    StripsNest(t, b);
  }

  lemma StripsNest(t: CharTable, b: string)
    ensures |Strip(t, b)| <= |StripRight(t, b)|
  {
    if AllSpace(t, b) {
      BlankStripsToNothing(t, b);
    } else {
      StripLeftIsSuffix(t, b);
      var front := b[..|b| - |StripLeft(t, b)|];
      NotBlankStripsToSome(t, b);
      StripRightBehind(t, front, StripLeft(t, b));
      assert front + StripLeft(t, b) == b;
    }
  }

  lemma JoinedWithBlank(t: CharTable, a: string, b: string)
    ensures AllSpace(t, a) ==> Strip(t, a + b) == Strip(t, b)
    ensures AllSpace(t, b) ==> Strip(t, a + b) == Strip(t, a)
  {
    if AllSpace(t, a) {
      StripLeftOfBlank(t, a, b);
    }
    if AllSpace(t, b) {
      if AllSpace(t, a) {
        BlankStripsToNothing(t, a);
        BlankStripsToNothing(t, b);
      } else {
        StripLeftInFront(t, a, b);
        StripRightOfBlank(t, StripLeft(t, a), b);
      }
    }
  }

  /** If one poll after both stretches raises nothing, polling between `a` and `b` raises nothing
      and finds the same. */
  predicate NothingLost(r: Reader, a: string, b: string, now: string) {
    !Raises(r, a + b) ==>
      !Raises(r, a) && !Raises(r, b) && Events(r, a + b, now) == Events(r, a, now) + Events(r, b, now)
  }

  const GENUINE: Payload :=
    map["event_id" := Truthy(Some("4625"), Whole(4625)), "target" := Truthy(Some("x"), NotWhole)]

  /** Reads one text alone as an event. */
  function OnlyReads(t: CharTable, text: string, agentId: string): Reader {
    Reader(t, (s: string) => if s == text then Object(GENUINE) else NoObject, agentId)
  }

  lemma GenuineIsValid(agentId: string, now: string)
    ensures Normalize(GENUINE, agentId, now).Read?
  {
    assert Pick(GENUINE, ["event_id", "EventID"]) == GENUINE["event_id"];
    assert Pick(GENUINE, ["target", "TargetUserName", "AccountName"]) == GENUINE["target"];
  }

  lemma OneLineIsOneText(r: Reader, x: string, y: string, now: string)
    requires Strip(r.t, x) == Strip(r.t, y)
    ensures OneLine(r, x, now) == OneLine(r, y, now)
    ensures ReadLine(r, x, now).Raised? <==> ReadLine(r, y, now).Raised?
  {
  }

  lemma BlankLineHoldsNothing(r: Reader, x: string, now: string)
    requires AllSpace(r.t, x)
    ensures OneLine(r, x, now) == [] && !ReadLine(r, x, now).Raised?
  {
    BlankStripsToNothing(r.t, x);
  }

  lemma Regrouped<T>(xs: seq<T>, y: seq<T>, zs: seq<T>, none: seq<T>)
    requires none == []
    ensures xs + y + zs == (xs + none) + (y + zs) == (xs + y) + (none + zs)
  {
  }

  lemma EventsAddUp(r: Reader, a: string, b: string, now: string)
    requires AllSpace(r.t, Tail(a)) || AllSpace(r.t, Head(b))
    ensures Events(r, a + b, now) == Events(r, a, now) + Events(r, b, now)
  {
    EventsOfParts(r, a, b, now);
    JoinedWithBlank(r.t, Tail(a), Head(b));
    var xs, zs := ReadLines(r, Before(a), now), ReadLines(r, Rest(b), now);
    var y := OneLine(r, Tail(a) + Head(b), now);
    if AllSpace(r.t, Tail(a)) {
      OneLineIsOneText(r, Tail(a) + Head(b), Head(b), now);
      BlankLineHoldsNothing(r, Tail(a), now);
      Regrouped(xs, y, zs, OneLine(r, Tail(a), now));
    } else {
      OneLineIsOneText(r, Tail(a) + Head(b), Tail(a), now);
      BlankLineHoldsNothing(r, Head(b), now);
      Regrouped(xs, y, zs, OneLine(r, Head(b), now));
    }
  }

  lemma {:induction false} SomeRaisesConcat(r: Reader, xs: seq<string>, ys: seq<string>)
    ensures SomeRaises(r, xs + ys) <==> SomeRaises(r, xs) || SomeRaises(r, ys)
  {
    if ys == [] {
      assert xs + ys == xs;
    } else {
      var n := |ys| - 1;
      SomeRaisesConcat(r, xs, ys[..n]);
      assert (xs + ys)[..|xs + ys| - 1] == xs + ys[..n] && (xs + ys)[|xs + ys| - 1] == ys[n];
    }
  }

  lemma SomeRaisesOne(r: Reader, line: string)
    ensures SomeRaises(r, [line]) <==> ReadLine(r, line, "").Raised?
  {
    assert [line][..0] == [];
  }

  lemma RaisesOfParts(r: Reader, a: string, b: string)
    ensures Raises(r, a) <==> SomeRaises(r, Before(a)) || ReadLine(r, Tail(a), "").Raised?
    ensures Raises(r, b) <==> ReadLine(r, Head(b), "").Raised? || SomeRaises(r, Rest(b))
    ensures Raises(r, a + b)
       <==> SomeRaises(r, Before(a)) || ReadLine(r, Tail(a) + Head(b), "").Raised? || SomeRaises(r, Rest(b))
  {
    SplitOnConcat(a, b, '\n');
    assert SplitOn(a, '\n') == Before(a) + [Tail(a)] && SplitOn(b, '\n') == [Head(b)] + Rest(b);
    SomeRaisesConcat(r, Before(a), [Tail(a)]);
    SomeRaisesConcat(r, [Head(b)], Rest(b));
    SomeRaisesConcat(r, Before(a) + [Tail(a) + Head(b)], Rest(b));
    SomeRaisesConcat(r, Before(a), [Tail(a) + Head(b)]);
    SomeRaisesOne(r, Tail(a));
    SomeRaisesOne(r, Head(b));
    SomeRaisesOne(r, Tail(a) + Head(b));
  }

  lemma RaisesAddUp(r: Reader, a: string, b: string)
    requires AllSpace(r.t, Tail(a)) || AllSpace(r.t, Head(b))
    ensures Raises(r, a + b) <==> Raises(r, a) || Raises(r, b)
  {
    RaisesOfParts(r, a, b);
    JoinedWithBlank(r.t, Tail(a), Head(b));
    if AllSpace(r.t, Tail(a)) {
      OneLineIsOneText(r, Tail(a) + Head(b), Head(b), "");
      BlankLineHoldsNothing(r, Tail(a), "");
    } else {
      OneLineIsOneText(r, Tail(a) + Head(b), Tail(a), "");
      BlankLineHoldsNothing(r, Head(b), "");
    }
  }

  lemma OnlyReadsThat(t: CharTable, text: string, agentId: string, line: string, now: string)
    requires text != ""
    ensures |OneLine(OnlyReads(t, text, agentId), line, now)| == if Strip(t, line) == text then 1 else 0
  {
    GenuineIsValid(agentId, now);
  }

  lemma {:induction false} OnlyReadsNeverRaises(t: CharTable, text: string, agentId: string, lines: seq<string>)
    ensures !SomeRaises(OnlyReads(t, text, agentId), lines)
  {
    if lines != [] {
      OnlyReadsNeverRaises(t, text, agentId, lines[..|lines| - 1]);
      GenuineIsValid(agentId, "");
    }
  }

  lemma WholeLineIsLost(t: CharTable, agentId: string, a: string, b: string, now: string)
    requires !AllSpace(t, Tail(a)) && !AllSpace(t, Head(b))
    ensures !NothingLost(OnlyReads(t, Strip(t, Tail(a) + Head(b)), agentId), a, b, now)
  {
    var whole := Strip(t, Tail(a) + Head(b));
    var r := OnlyReads(t, whole, agentId);
    EventsOfParts(r, a, b, now);
    JoinedIsLonger(t, Tail(a), Head(b));
    OnlyReadsThat(t, whole, agentId, Tail(a), now);
    OnlyReadsThat(t, whole, agentId, Head(b), now);
    OnlyReadsThat(t, whole, agentId, Tail(a) + Head(b), now);
    OnlyReadsNeverRaises(t, whole, agentId, SplitOn(a + b, '\n'));
  }

  /** A poll that falls inside a line loses nothing, whatever the lines mean, exactly when one of
      the two parts of that line is blank. */
  lemma MidLinePollIsSafeIff(t: CharTable, agentId: string, a: string, b: string, now: string)
    ensures (forall decode: string -> Decoded :: NothingLost(Reader(t, decode, agentId), a, b, now))
            <==> AllSpace(t, Tail(a)) || AllSpace(t, Head(b))
  {
    if AllSpace(t, Tail(a)) || AllSpace(t, Head(b)) {
      forall decode: string -> Decoded ensures NothingLost(Reader(t, decode, agentId), a, b, now) {
        EventsAddUp(Reader(t, decode, agentId), a, b, now);
        RaisesAddUp(Reader(t, decode, agentId), a, b);
      }
    } else {
      WholeLineIsLost(t, agentId, a, b, now);
      var decode := OnlyReads(t, Strip(t, Tail(a) + Head(b)), agentId).decode;
      assert !NothingLost(Reader(t, decode, agentId), a, b, now);
    }
  }
}
