/** Tailing a growing file, at any rhythm. */
module CollectorRuns {
  import opened Text
  import opened Collectors
  import opened Runs

  datatype Op = Append(text: string) | Replace(text: string) | Poll(now: string)

  /** The file, the collector's place in it, and everything its polls returned. */
  datatype Tailing = Tailing(file: string, offset: nat, found: seq<Collected>)

  /** What the collector reads next: all of the file if it shrank below the collector's place. */
  function Start(s: Tailing): nat { if |s.file| < s.offset then 0 else s.offset }

  /** `Poll` is the contract of `FileEventCollector.Poll` on a file that is there. */
  function Step(r: Reader, s: Tailing, op: Op): Tailing {
    match op
    case Append(text) => s.(file := s.file + text)
    case Replace(text) => s.(file := text)
    case Poll(now) =>
      var unread := s.file[Start(s)..];
      if Raises(r, unread) then s.(offset := Start(s))
      else s.(offset := |s.file|, found := s.found + Events(r, unread, now))
  }

  function Stepper(r: Reader): (Tailing, Op) -> Tailing { (s, op) => Step(r, s, op) }

  function Run(r: Reader, s: Tailing, ops: seq<Op>): Tailing { Fold(Stepper(r), s, ops) }

  /** A collector just built on a file, whatever is already in it. */
  function Built(file: string): Tailing { Tailing(file, |file|, []) }

  predicate WholeLines(text: string) { text == "" || text[|text| - 1] == '\n' }

  ghost predicate AppendsWholeLines(ops: seq<Op>) {
    forall op :: op in ops ==> !op.Replace? && (op.Append? ==> WholeLines(op.text))
  }

  /** Everything appended, in order. */
  function Appended(ops: seq<Op>): string {
    if ops == [] then ""
    else
      var n := |ops| - 1;
      Appended(ops[..n]) + (if ops[n].Append? then ops[n].text else "")
  }

  // ---------------------------------------------------------------- time stamps

  /** An event without the time the collector put on it. */
  function Undated(e: Collected): Collected { if e.dated then e else e.(timestamp := "") }

  function AllUndated(es: seq<Collected>): (r: seq<Collected>)
    ensures |r| == |es|
  {
    seq(|es|, i requires 0 <= i < |es| => Undated(es[i]))
  }

  lemma UndatedConcat(a: seq<Collected>, b: seq<Collected>)
    ensures AllUndated(a + b) == AllUndated(a) + AllUndated(b)
  {
  }

  lemma OneLineAtAnyTime(r: Reader, line: string, now: string, later: string)
    ensures AllUndated(OneLine(r, line, now)) == AllUndated(OneLine(r, line, later))
  {
  }

  lemma {:induction false} ReadAtAnyTime(r: Reader, lines: seq<string>, now: string, later: string)
    ensures AllUndated(ReadLines(r, lines, now)) == AllUndated(ReadLines(r, lines, later))
  {
    if lines != [] {
      var n := |lines| - 1;
      ReadAtAnyTime(r, lines[..n], now, later);
      OneLineAtAnyTime(r, lines[n], now, later);
      UndatedConcat(ReadLines(r, lines[..n], now), OneLine(r, lines[n], now));
      UndatedConcat(ReadLines(r, lines[..n], later), OneLine(r, lines[n], later));
    }
  }

  // ---------------------------------------------------------------- whole lines

  lemma WholeLinesEndBlank(t: CharTable, text: string)
    requires WholeLines(text)
    ensures AllSpace(t, Tail(text))
  {
    if text != "" {
      var n := |text| - 1;
      SplitOnConcat(text[..n], "\n", '\n');
      assert text[..n] + "\n" == text;
      CutAtFirst("", '\n', "");
      assert "" + ['\n'] + "" == "\n";
      assert SplitOn("\n", '\n') == ["", ""];
    }
  }

  lemma WholeLinesConcat(a: string, b: string)
    requires WholeLines(a) && WholeLines(b)
    ensures WholeLines(a + b)
  {
    if b == "" {
      assert a + b == a;
    }
  }

  /** Two stretches, the first of whole lines, hold the events of both and raise if either does. */
  lemma WholeLinesAddUp(r: Reader, a: string, b: string)
    requires WholeLines(a)
    ensures Events(r, a + b, "") == Events(r, a, "") + Events(r, b, "")
    ensures Raises(r, a + b) <==> Raises(r, a) || Raises(r, b)
  {
    WholeLinesEndBlank(r.t, a);
    EventsAddUp(r, a, b, "");
    RaisesAddUp(r, a, b);
  }

  /** Of what was appended, the part the collector has passed and the part it has not: a poll
      passes everything there is, unless a line of it raises. */
  datatype Passed = Passed(seen: string, unread: string)

  function Pass(r: Reader, p: Passed, op: Op): Passed {
    match op
    case Append(text) => p.(unread := p.unread + text)
    case Replace(_) => p
    case Poll(_) => if Raises(r, p.unread) then p else Passed(p.seen + p.unread, "")
  }

  function PassedBy(r: Reader, ops: seq<Op>): Passed {
    if ops == [] then Passed("", "") else Pass(r, PassedBy(r, ops[..|ops| - 1]), ops[|ops| - 1])
  }

  lemma {:induction false} PassedIsAppended(r: Reader, ops: seq<Op>)
    requires AppendsWholeLines(ops)
    ensures var p := PassedBy(r, ops);
      && Appended(ops) == p.seen + p.unread
      && WholeLines(p.seen) && WholeLines(p.unread) && !Raises(r, p.seen)
  {
    if ops == [] {
      NothingInNothing(r);
    } else {
      var n := |ops| - 1;
      PassedIsAppended(r, ops[..n]);
      var p := PassedBy(r, ops[..n]);
      match ops[n]
      case Append(text) =>
        WholeLinesConcat(p.unread, text);
        Associative(p.seen, p.unread, text);
      case Poll(_) =>
        WholeLinesConcat(p.seen, p.unread);
        NothingAfter(p.seen + p.unread, "");
        WholeLinesAddUp(r, p.seen, p.unread);
    }
  }

  /** What was found is what the lines passed hold, and the collector stands after them. */
  ghost predicate UpToDate(r: Reader, s: Tailing, start: string, p: Passed) {
    && s.file == start + p.seen + p.unread
    && s.offset == |start + p.seen|
    && AllUndated(s.found) == AllUndated(Events(r, p.seen, ""))
  }

  lemma AppendStaysUpToDate(r: Reader, s: Tailing, start: string, p: Passed, more: string)
    requires UpToDate(r, s, start, p)
    ensures UpToDate(r, Step(r, s, Append(more)), start, Pass(r, p, Append(more)))
  {
    Associative(start + p.seen, p.unread, more);
  }

  lemma PollReadsUnread(r: Reader, s: Tailing, before: string, unread: string, now: string)
    requires s.file == before + unread && s.offset == |before|
    ensures s.file[Start(s)..] == unread
    ensures Step(r, s, Poll(now))
         == if Raises(r, unread) then s else Tailing(s.file, |s.file|, s.found + Events(r, unread, now))
  {
    assert (before + unread)[|before|..] == unread;
  }

  lemma FoundGrows(r: Reader, found: seq<Collected>, seen: string, unread: string, now: string)
    requires WholeLines(seen) && AllUndated(found) == AllUndated(Events(r, seen, ""))
    ensures AllUndated(found + Events(r, unread, now)) == AllUndated(Events(r, seen + unread, ""))
  {
    WholeLinesAddUp(r, seen, unread);
    UndatedConcat(Events(r, seen, ""), Events(r, unread, ""));
    UndatedConcat(found, Events(r, unread, now));
    ReadAtAnyTime(r, SplitOn(unread, '\n'), now, "");
  }

  lemma PollStaysUpToDate(r: Reader, s: Tailing, start: string, p: Passed, now: string)
    requires UpToDate(r, s, start, p) && WholeLines(p.seen)
    ensures UpToDate(r, Step(r, s, Poll(now)), start, Pass(r, p, Poll(now)))
  {
    PollReadsUnread(r, s, start + p.seen, p.unread, now);
    FoundGrows(r, s.found, p.seen, p.unread, now);
    Associative(start, p.seen, p.unread);
    NothingAfter(start + (p.seen + p.unread), "");
  }

  lemma {:induction false} RunStaysUpToDate(r: Reader, start: string, ops: seq<Op>)
    requires AppendsWholeLines(ops)
    ensures UpToDate(r, Run(r, Built(start), ops), start, PassedBy(r, ops))
  {
    if ops == [] {
      assert start + "" + "" == start;
      NothingInNothing(r);
    } else {
      var n := |ops| - 1;
      var before := Run(r, Built(start), ops[..n]);
      RunStaysUpToDate(r, start, ops[..n]);
      PassedIsAppended(r, ops[..n]);
      match ops[n]
      case Append(text) => AppendStaysUpToDate(r, before, start, PassedBy(r, ops[..n]), text);
      case Poll(now) => PollStaysUpToDate(r, before, start, PassedBy(r, ops[..n]), now);
    }
  }

  lemma NothingInNothing(r: Reader)
    ensures Events(r, "", "") == [] && !Raises(r, "")
  {
    BlankLineHoldsNothing(r, "", "");
    ReadOne(r, "", "");
    SomeRaisesOne(r, "");
    assert SplitOn("", '\n') == [""];
  }

  // ---------------------------------------------------------------- theorems

  lemma {:induction false} StuckOnlyIfRaising(r: Reader, ops: seq<Op>)
    requires AppendsWholeLines(ops) && ops != [] && ops[|ops| - 1].Poll?
    ensures Raises(r, Appended(ops)) <==> Raises(r, PassedBy(r, ops).unread)
    ensures !Raises(r, Appended(ops)) ==> PassedBy(r, ops).unread == ""
  {
    PassedIsAppended(r, ops);
    WholeLinesAddUp(r, PassedBy(r, ops).seen, PassedBy(r, ops).unread);
    NothingInNothing(r);
  }

  /** Whatever was in the file at the start and however polls fall between whole-line appends, the
      last of them a poll: the collector has come to the end of the file exactly when no appended
      line raises; and the polls together returned every valid event of the appended lines, once
      and in order, exactly when no line raises or the stretch the tail is stuck on - all since
      the last poll before the raising line - has no valid event.  Only the time put on a line
      that has none depends on the rhythm. */
  lemma TailingReturnsAllIff(r: Reader, start: string, ops: seq<Op>)
    requires AppendsWholeLines(ops) && ops != [] && ops[|ops| - 1].Poll?
    ensures var s := Run(r, Built(start), ops);
      && (s.offset == |s.file| <==> !Raises(r, Appended(ops)))
      && AllUndated(s.found) == AllUndated(Events(r, PassedBy(r, ops).seen, ""))
      && (AllUndated(s.found) == AllUndated(Events(r, Appended(ops), ""))
          <==> !Raises(r, Appended(ops)) || Events(r, PassedBy(r, ops).unread, "") == [])
  {
    var p := PassedBy(r, ops);
    RunStaysUpToDate(r, start, ops);
    PassedIsAppended(r, ops);
    StuckOnlyIfRaising(r, ops);
    NothingInNothing(r);
    WholeLinesAddUp(r, p.seen, p.unread);
    UndatedConcat(Events(r, p.seen, ""), Events(r, p.unread, ""));
  }

  /** The schedule does not matter: while no line raises, any two rhythms of polls, each ending in
      one, over the same appended text find the same. */
  lemma TailingIsScheduleIndependent(r: Reader, start: string, ops: seq<Op>, other: seq<Op>)
    requires AppendsWholeLines(ops) && ops != [] && ops[|ops| - 1].Poll?
    requires AppendsWholeLines(other) && other != [] && other[|other| - 1].Poll?
    requires Appended(ops) == Appended(other) && !Raises(r, Appended(ops))
    ensures AllUndated(Run(r, Built(start), ops).found) == AllUndated(Run(r, Built(start), other).found)
         == AllUndated(Events(r, Appended(ops), ""))
  {
    TailingReturnsAllIff(r, start, ops);
    TailingReturnsAllIff(r, start, other);
  }

  ghost predicate OnlyGrows(ops: seq<Op>) { forall op :: op in ops ==> !op.Replace? }

  /** The collector stands before whole lines one of which raises. */
  ghost predicate Stuck(r: Reader, s: Tailing, before: string, lines: string, after: string) {
    s.file == before + lines + after && s.offset == |before| && WholeLines(lines) && Raises(r, lines)
  }

  /** Once a poll has met a raising line, nothing more is returned however the file grows, whatever
      is appended ... */
  lemma {:induction false} RaisingLineStopsTheTail(
      r: Reader, s: Tailing, before: string, lines: string, after: string, ops: seq<Op>)
    requires Stuck(r, s, before, lines, after) && OnlyGrows(ops)
    ensures Run(r, s, ops).found == s.found && Run(r, s, ops).offset == s.offset
    ensures Stuck(r, Run(r, s, ops), before, lines, after + Appended(ops))
  {
    if ops == [] {
      NothingAfter(after, "");
    } else {
      var n := |ops| - 1;
      RaisingLineStopsTheTail(r, s, before, lines, after, ops[..n]);
      var now := Run(r, s, ops[..n]);
      var rest := after + Appended(ops[..n]);
      assert !ops[n].Replace?;
      if ops[n].Append? {
        Associative(before + lines, rest, ops[n].text);
        Associative(after, Appended(ops[..n]), ops[n].text);
      } else {
        Associative(before, lines, rest);
        PollReadsUnread(r, now, before, lines + rest, ops[n].now);
        WholeLinesAddUp(r, lines, rest);
        NothingAfter(Appended(ops[..n]), "");
      }
    }
  }

  /** ... until the file is replaced by a shorter one: then the next poll reads all of that. */
  lemma ShrinkingFreesTheTail(r: Reader, s: Tailing, text: string, now: string)
    requires |text| < s.offset && !Raises(r, text)
    ensures Run(r, s, [Replace(text), Poll(now)]) == Tailing(text, |text|, s.found + Events(r, text, now))
  {
    var ops := [Replace(text), Poll(now)];
    assert ops[..1] == [ops[0]] && ops[..1][..0] == [];
    assert text[0..] == text;
    assert Run(r, s, []) == s;
    assert Run(r, s, ops[..1]) == Step(r, s, ops[0]);
  }
}
