/** What the console logs of the lines an agent sends. */
module AgentOutcomes {
  import opened Text
  import opened Monitoring
  import opened MonitoringRuns
  import opened Collectors
  import opened CollectorRuns
  import opened AgentProtocol
  import opened AgentTheorems
  import opened Detection
  import opened Payloads

  /** The logged event says what the collected one says, with the verdict of the registry. */
  ghost predicate Logs(r: Reader, honey: seq<Honey>, e: Event, c: Collected) {
    && e.ingested && e.agentId == r.agentId && e.eventId == c.eventId
    && e.actor == Strip(r.t, c.actor) && e.target == Strip(r.t, c.target)
    && e.source == (if c.source == "" then r.agentId else c.source)
    && (c.timestamp != "" ==> e.timestamp == c.timestamp)
    && Judged(r.t, honey, true, Lower(r.t, if c.severity == "" then "info" else c.severity), c.description, e)
  }

  lemma ItemLogs(r: Reader, f: Full, c: Collected, now: string)
    requires r.agentId != "" && Acceptable(r.t, ItemOf(c))
    ensures var log := FullIngestItem(r.t, f, ItemOf(c), r.agentId, now).log;
      |log| == |f.log| + 1 && log[..|f.log|] == f.log && Logs(r, f.honey, log[|f.log|], c)
  {
    BuiltIsJudged(r.t, f.honey, ArgsOf(r.t, ItemOf(c), r.agentId), |f.log| + 1, now);
  }

  /** Some event logged after the first `from` stands for `c`. */
  ghost predicate LogsAfter(r: Reader, honey: seq<Honey>, log: seq<Event>, from: nat, c: Collected) {
    exists k :: from <= k < |log| && Logs(r, honey, log[k], c)
  }

  lemma {:induction false} BatchLogs(r: Reader, f: Full, cs: seq<Collected>, now: Clock, i: nat)
    requires r.agentId != "" && i < |cs| && Acceptable(r.t, ItemOf(cs[i]))
    ensures var log := FullIngest(r.t, f, ItemsOf(cs), r.agentId, now).log;
      |f.log| <= |log| && LogsAfter(r, f.honey, log, |f.log|, cs[i])
  {
    var n := |cs| - 1;
    var before := FullIngest(r.t, f, ItemsOf(cs[..n]), r.agentId, now);
    LastItem(r.t, f, cs, r.agentId, now);
    BatchGrows(r, f, cs[..n], now);
    if i < n {
      BatchLogs(r, f, cs[..n], now, i);
      EarlierStaysLogged(r, f.honey, before, cs[n], now(n), |f.log|, cs[i]);
    } else {
      ItemLogs(r, before, cs[n], now(n));
    }
  }

  lemma EarlierStaysLogged(r: Reader, honey: seq<Honey>, f: Full, c: Collected, now: string, from: nat, earlier: Collected)
    requires LogsAfter(r, honey, f.log, from, earlier)
    ensures LogsAfter(r, honey, FullIngestItem(r.t, f, ItemOf(c), r.agentId, now).log, from, earlier)
  {
    var k :| from <= k < |f.log| && Logs(r, honey, f.log[k], earlier);
    NextKeepsLogged(r, f, c, now, k);
    assert Logs(r, honey, FullIngestItem(r.t, f, ItemOf(c), r.agentId, now).log[k], earlier);
  }

  lemma NextKeepsLogged(r: Reader, f: Full, c: Collected, now: string, k: nat)
    requires k < |f.log|
    ensures var log := FullIngestItem(r.t, f, ItemOf(c), r.agentId, now).log; k < |log| && log[k] == f.log[k]
  {
  }

  lemma {:induction false} BatchGrows(r: Reader, f: Full, cs: seq<Collected>, now: Clock)
    ensures |FullIngest(r.t, f, ItemsOf(cs), r.agentId, now).log| >= |f.log|
  {
    if cs != [] {
      LastItem(r.t, f, cs, r.agentId, now);
      BatchGrows(r, f, cs[..|cs| - 1], now);
    }
  }

  lemma InEither<T>(a: seq<T>, b: seq<T>, x: T)
    ensures x in a + b <==> x in a || x in b
  {
  }

  lemma FirstLineIsRead(r: Reader, line: string, rest: seq<string>, now: string)
    requires ReadLine(r, line, now).Read?
    ensures ReadLine(r, line, now).event in ReadLines(r, [line] + rest, now)
  {
    ReadLinesConcat(r, [line], rest, now);
    ReadLinesLast(r, [], line, now);
    assert [] + [line] == [line];
    InEither(ReadLines(r, [line], now), ReadLines(r, rest, now), ReadLine(r, line, now).event);
  }

  lemma LineIsRead(r: Reader, lines: seq<string>, i: nat, now: string)
    requires i < |lines| && ReadLine(r, lines[i], now).Read?
    ensures ReadLine(r, lines[i], now).event in ReadLines(r, lines, now)
  {
    var before, after := lines[..i], [lines[i]] + lines[i + 1..];
    assert lines == before + after;
    ReadLinesConcat(r, before, after, now);
    FirstLineIsRead(r, lines[i], lines[i + 1..], now);
    InEither(ReadLines(r, before, now), ReadLines(r, after, now), ReadLine(r, lines[i], now).event);
  }

  /** A line read as an event with an actor and a target reaches the log with the next forward that
      arrives, within the batch limit: as what it says, correlated with the first object of the console's
      registry it touches. */
  lemma ReadLineIsLogged(r: Reader, w: World, link: Link, now: string, clock: Clock, i: nat)
    requires r.agentId != "" && link != Lost && |Batch(r, w, now)| <= MAX_BATCH
    requires var lines := SplitOn(UnreadOf(w.file, w.agent.offset), '\n');
      && !Raises(r, UnreadOf(w.file, w.agent.offset)) && i < |lines|
      && ReadLine(r, lines[i], now).Read? && Acceptable(r.t, ItemOf(ReadLine(r, lines[i], now).event))
    ensures var line := SplitOn(UnreadOf(w.file, w.agent.offset), '\n')[i];
      LogsAfter(r, w.full.honey, Moved(r, w, ForwardMove(link, now, clock)).full.log, |w.full.log|, ReadLine(r, line, now).event)
  {
    var lines, batch := SplitOn(UnreadOf(w.file, w.agent.offset), '\n'), Batch(r, w, now);
    LineIsRead(r, lines, i, now);
    var c := ReadLine(r, lines[i], now).event;
    var k :| 0 <= k < |batch| && batch[k] == c;
    BatchLogs(r, w.full, batch, clock, k);
  }

  /** What is logged for a collected event that touches a registered object is correlated with one. */
  lemma TouchingIsCorrelated(r: Reader, honey: seq<Honey>, e: Event, c: Collected, h: Honey)
    requires Logs(r, honey, e, c) && h in honey && Touches(r.t, h, Strip(r.t, c.actor), Strip(r.t, c.target))
    ensures e.honeyObject != "" && e.severity in {"critical", "high"}
    ensures exists o :: o in honey && o.name == e.honeyObject && Touches(r.t, o, e.actor, e.target)
  {
  }

  lemma GivenTargetIsRead(raw: Payload, agentId: string, now: string, x: string)
    requires TruthyAt(raw, "target") && raw["target"].text == Some(x) && x != "" && Normalize(raw, agentId, now).Read?
    ensures Normalize(raw, agentId, now).event.target == x
  {
    assert FirstTruthy(raw, ["target", "TargetUserName", "AccountName"], 0);
    PickIsFirst(raw, ["target", "TargetUserName", "AccountName"]);
  }

  /** End to end: a line whose "target" holds the name of an object in the console's registry is logged,
      by the next forward that arrives within the batch limit, as correlated with a registered object. */
  lemma TargetedLineIsCorrelated(
      r: Reader, w: World, link: Link, now: string, clock: Clock, i: nat, raw: Payload, x: string, h: Honey)
    requires r.agentId != "" && link != Lost && |Batch(r, w, now)| <= MAX_BATCH
    requires var lines := SplitOn(UnreadOf(w.file, w.agent.offset), '\n');
      && !Raises(r, UnreadOf(w.file, w.agent.offset)) && i < |lines|
      && ReadLine(r, lines[i], now).Read? && Acceptable(r.t, ItemOf(ReadLine(r, lines[i], now).event))
      && r.decode(Strip(r.t, lines[i])) == Object(raw)
    requires TruthyAt(raw, "target") && raw["target"].text == Some(x) && x != ""
    requires h in w.full.honey && h.name != "" && FoldedIn(r.t, h.name, Strip(r.t, x))
    ensures var log := Moved(r, w, ForwardMove(link, now, clock)).full.log;
      exists k :: |w.full.log| <= k < |log| && log[k].target == Strip(r.t, x) && log[k].honeyObject != ""
               && log[k].severity in {"critical", "high"}
  {
    var line := SplitOn(UnreadOf(w.file, w.agent.offset), '\n')[i];
    ReadLineIsLogged(r, w, link, now, clock, i);
    var log, c := Moved(r, w, ForwardMove(link, now, clock)).full.log, ReadLine(r, line, now).event;
    GivenTargetIsRead(raw, r.agentId, now, x);
    var k :| |w.full.log| <= k < |log| && Logs(r, w.full.honey, log[k], c);
    TouchingIsCorrelated(r, w.full.honey, log[k], c, h);
  }
}
