/** What holds over every run of the agent, the console and whatever else speaks to it. */
module AgentTheorems {
  import opened Text
  import opened Runs
  import opened Monitoring
  import opened MonitoringRuns
  import opened Collectors
  import opened CollectorRuns
  import opened AgentRegistry
  import opened AgentProtocol

  /** Of the lines appended in a run, those the agent has passed and those it has not. */
  datatype Progress = Progress(seen: string, unread: string)

  function Advance(r: Reader, p: Progress, m: Move): Progress {
    match m
    case Grow(text) => p.(unread := p.unread + text)
    case ForwardMove(_, _, _) => if Raises(r, p.unread) then p else Progress(p.seen + p.unread, "")
    case AgentRestart => Progress(p.seen + p.unread, "")
    case _ => p
  }

  function ProgressOf(r: Reader, moves: seq<Move>): Progress {
    if moves == [] then Progress("", "")
    else Advance(r, ProgressOf(r, moves[..|moves| - 1]), moves[|moves| - 1])
  }

  function Grown(moves: seq<Move>): string {
    if moves == [] then ""
    else
      var n := |moves| - 1;
      Grown(moves[..n]) + (if moves[n].Grow? then moves[n].text else "")
  }

  lemma {:induction false} ProgressIsGrowth(r: Reader, moves: seq<Move>)
    ensures ProgressOf(r, moves).seen + ProgressOf(r, moves).unread == Grown(moves)
  {
    if moves != [] {
      var n := |moves| - 1;
      var p := ProgressOf(r, moves[..n]);
      ProgressIsGrowth(r, moves[..n]);
      if moves[n].Grow? {
        Associative(p.seen, p.unread, moves[n].text);
      } else {
        NothingAfter(p.seen + p.unread, "");
      }
    }
  }

  // ---------------------------------------------------------------- invariants

  /** Where the agent stands in the file, and what of it the console's log stands for. */
  ghost predicate LogHolds(r: Reader, w: World, start: string, p: Progress) {
    && w.file == start + p.seen + p.unread
    && w.agent.offset == |start + p.seen|
    && WholeLines(p.seen) && WholeLines(p.unread)
    && Embedded(r, Mine(w.full.log, r.agentId), Events(r, p.seen, ""))
  }

  ghost predicate ConsoleHolds(w: World, persistent: bool) {
    Good(w.console.state, w.full) && w.console.state.persistent == persistent
  }

  function CountOf(agents: Agents, id: string): int { if id in agents then agents[id].eventsForwarded else 0 }

  /** By how much the console's count is ahead of the agent's. */
  function Gap(r: Reader, w: World): int { CountOf(w.console.agents, r.agentId) - w.agent.forwarded }

  /** An agent just started on a file, unknown to the console's log. */
  ghost predicate Begins(r: Reader, w: World, persistent: bool) {
    && w.agent.offset == |w.file| && w.agent.forwarded == 0
    && Mine(w.full.log, r.agentId) == []
    && ConsoleHolds(w, persistent)
    && CountOf(w.console.agents, r.agentId) >= 0
  }

  // ---------------------------------------------------------------- the batch

  lemma UnreadIsUnread(w: World, before: string, unread: string)
    requires w.file == before + unread && w.agent.offset == |before|
    ensures UnreadOf(w.file, w.agent.offset) == unread
  {
    assert (before + unread)[|before|..] == unread;
  }

  /** A forward that meets a raising line changes nothing but the status. */
  lemma StuckForward(r: Reader, w: World, start: string, p: Progress, link: Link, now: string, there: Clock)
    requires LogHolds(r, w, start, p) && Raises(r, p.unread)
    ensures Moved(r, w, ForwardMove(link, now, there)) == w.(agent := w.agent.(status := "ok"))
    ensures Batch(r, w, now) == []
  {
    UnreadIsUnread(w, start + p.seen, p.unread);
  }

  lemma OneLineSameReading(r: Reader, line: string, now: string, later: string)
    ensures SameReading(OneLine(r, line, now), OneLine(r, line, later))
  {
  }

  lemma SameReadingConcat(a: seq<Collected>, b: seq<Collected>, a': seq<Collected>, b': seq<Collected>)
    requires SameReading(a, a') && SameReading(b, b')
    ensures SameReading(a + b, a' + b')
  {
  }

  lemma {:induction false} LinesSameReading(r: Reader, lines: seq<string>, now: string, later: string)
    ensures SameReading(ReadLines(r, lines, now), ReadLines(r, lines, later))
  {
    if lines != [] {
      var n := |lines| - 1;
      LinesSameReading(r, lines[..n], now, later);
      OneLineSameReading(r, lines[n], now, later);
      SameReadingConcat(ReadLines(r, lines[..n], now), OneLine(r, lines[n], now),
                        ReadLines(r, lines[..n], later), OneLine(r, lines[n], later));
    }
  }

  lemma EventsGrow(r: Reader, seen: string, unread: string, now: string)
    requires WholeLines(seen)
    ensures Events(r, seen + unread, now) == Events(r, seen, now) + Events(r, unread, now)
  {
    WholeLinesEndBlank(r.t, seen);
    EventsAddUp(r, seen, unread, now);
  }

  lemma {:induction false} AllAccepted(t: CharTable, items: seq<Item>)
    ensures Accepted(t, items) <= |items|
    ensures Accepted(t, items) == |items| <==> forall i :: 0 <= i < |items| ==> Acceptable(t, items[i])
  {
    if items != [] {
      var n := |items| - 1;
      AllAccepted(t, items[..n]);
      assert forall i :: 0 <= i < n ==> items[..n][i] == items[i];
    }
  }

  /** How many of the unread events a forward puts in the console's log. */
  function Delivered(r: Reader, w: World, link: Link, now: string): nat {
    var batch := Batch(r, w, now);
    if batch == [] || link == Lost || |batch| > MAX_BATCH then 0 else Accepted(r.t, ItemsOf(batch))
  }

  lemma ForwardLogs(r: Reader, w: World, start: string, p: Progress, link: Link, now: string, there: Clock)
    requires LogHolds(r, w, start, p) && r.agentId != "" && !Raises(r, p.unread)
    ensures var log := Moved(r, w, ForwardMove(link, now, there)).full.log;
      && Embedded(r, Mine(log, r.agentId), Events(r, p.seen + p.unread, ""))
      && |Mine(log, r.agentId)| == |Mine(w.full.log, r.agentId)| + Delivered(r, w, link, now)
  {
    UnreadIsUnread(w, start + p.seen, p.unread);
    EventsGrow(r, p.seen, p.unread, "");
    var batch := Batch(r, w, now);
    if batch == [] || link == Lost || |batch| > MAX_BATCH {
      EmbedsInLonger(r, Mine(w.full.log, r.agentId), Events(r, p.seen, ""), Events(r, p.unread, ""));
    } else {
      LinesSameReading(r, SplitOn(p.unread, '\n'), now, "");
      OwnIngest(r, w.full, Events(r, p.seen, ""), batch, Events(r, p.unread, ""), there);
    }
  }

  lemma PassedOver(start: string, p: Progress)
    ensures start + p.seen + p.unread == start + (p.seen + p.unread) + ""
  {
    Associative(start, p.seen, p.unread);
    NothingAfter(start + (p.seen + p.unread), "");
  }

  lemma LengthOfJoined(start: string, p: Progress)
    ensures |start + p.seen + p.unread| == |start + (p.seen + p.unread)|
  {
  }

  lemma GrowKeepsLog(r: Reader, w: World, start: string, p: Progress, text: string)
    requires LogHolds(r, w, start, p) && WholeLines(text)
    ensures LogHolds(r, Moved(r, w, Grow(text)), start, Advance(r, p, Grow(text)))
  {
    Associative(start + p.seen, p.unread, text);
    WholeLinesConcat(p.unread, text);
  }

  lemma ForwardPasses(r: Reader, w: World, link: Link, now: string, there: Clock)
    requires !Raises(r, UnreadOf(w.file, w.agent.offset))
    ensures var after := Moved(r, w, ForwardMove(link, now, there));
      after.file == w.file && after.agent.offset == |w.file|
  {
  }

  lemma ForwardKeepsLog(r: Reader, w: World, start: string, p: Progress, link: Link, now: string, there: Clock)
    requires LogHolds(r, w, start, p) && r.agentId != ""
    ensures LogHolds(r, Moved(r, w, ForwardMove(link, now, there)), start, Advance(r, p, ForwardMove(link, now, there)))
  {
    if Raises(r, p.unread) {
      StuckForward(r, w, start, p, link, now, there);
    } else {
      UnreadIsUnread(w, start + p.seen, p.unread);
      ForwardPasses(r, w, link, now, there);
      ForwardLogs(r, w, start, p, link, now, there);
      PassedOver(start, p);
      WholeLinesConcat(p.seen, p.unread);
      LengthOfJoined(start, p);
    }
  }

  lemma RestartKeepsLog(r: Reader, w: World, start: string, p: Progress)
    requires LogHolds(r, w, start, p)
    ensures LogHolds(r, Moved(r, w, AgentRestart), start, Progress(p.seen + p.unread, ""))
  {
    PassedOver(start, p);
    NothingAfter(start + (p.seen + p.unread), "");
    WholeLinesConcat(p.seen, p.unread);
    EventsGrow(r, p.seen, p.unread, "");
    EmbedsInLonger(r, Mine(w.full.log, r.agentId), Events(r, p.seen, ""), Events(r, p.unread, ""));
  }

  lemma OthersKeepMine(r: Reader, w: World, persistent: bool, m: Move)
    requires Allowed(r, persistent, m) && (m.OtherPost? || m.OtherCall? || m.OtherReport? || m.ReportMove?)
    ensures SameBut(Mine(w.full.log, r.agentId), Mine(Moved(r, w, m).full.log, r.agentId))
  {
    match m
    case OtherPost(id, items, there) => OthersIngest(r.t, w.full, items, SenderOf(id), there, r.agentId);
    case OtherCall(op) => OthersCall(r, persistent, w.full, op);
    case _ =>
  }

  lemma MoveKeepsLog(r: Reader, w: World, persistent: bool, start: string, p: Progress, m: Move)
    requires LogHolds(r, w, start, p) && r.agentId != "" && Allowed(r, persistent, m)
    ensures LogHolds(r, Moved(r, w, m), start, Advance(r, p, m))
  {
    match m
    case Grow(text) => GrowKeepsLog(r, w, start, p, text);
    case ForwardMove(link, now, there) => ForwardKeepsLog(r, w, start, p, link, now, there);
    case AgentRestart => RestartKeepsLog(r, w, start, p);
    case _ =>
      OthersKeepMine(r, w, persistent, m);
      EmbeddedSameBut(r, Mine(w.full.log, r.agentId), Mine(Moved(r, w, m).full.log, r.agentId), Events(r, p.seen, ""));
  }

  lemma PostKeepsConsole(t: CharTable, con: Console, f: Full, id: string, items: seq<Item>, now: Clock)
    requires Good(con.state, f)
    ensures Good(Post(t, con, id, items, now).console.state, FullPost(t, f, id, items, now))
    ensures Post(t, con, id, items, now).console.state.persistent == con.state.persistent
  {
    IngestGood(t, con.state, f, items, SenderOf(id), now);
    IngestKeepsChoices(t, con.state, items, SenderOf(id), now);
  }

  lemma ForwardKeepsConsole(r: Reader, w: World, persistent: bool, link: Link, now: string, there: Clock)
    requires ConsoleHolds(w, persistent) && r.agentId != ""
    ensures ConsoleHolds(Moved(r, w, ForwardMove(link, now, there)), persistent)
  {
    PostKeepsConsole(r.t, w.console, w.full, r.agentId, ItemsOf(Batch(r, w, now)), there);
  }

  lemma MoveKeepsConsole(r: Reader, w: World, persistent: bool, m: Move)
    requires ConsoleHolds(w, persistent) && Allowed(r, persistent, m) && r.agentId != ""
    ensures ConsoleHolds(Moved(r, w, m), persistent)
  {
    match m
    case ForwardMove(link, now, there) => ForwardKeepsConsole(r, w, persistent, link, now, there);
    case OtherPost(id, items, there) => PostKeepsConsole(r.t, w.console, w.full, id, items, there);
    case OtherCall(op) => StepGood(r.t, w.console.state, w.full, op);
    case _ =>
  }

  lemma {:induction false} RunHolds(r: Reader, w: World, persistent: bool, moves: seq<Move>)
    requires Begins(r, w, persistent) && r.agentId != "" && AllAllowed(r, persistent, moves)
    ensures LogHolds(r, Reached(r, w, moves), w.file, ProgressOf(r, moves))
    ensures ConsoleHolds(Reached(r, w, moves), persistent)
  {
    if moves == [] {
      NothingAfter(w.file, "");
    } else {
      var n := |moves| - 1;
      RunHolds(r, w, persistent, moves[..n]);
      MoveKeepsLog(r, Reached(r, w, moves[..n]), persistent, w.file, ProgressOf(r, moves[..n]), moves[n]);
      MoveKeepsConsole(r, Reached(r, w, moves[..n]), persistent, moves[n]);
    }
  }

  // ---------------------------------------------------------------- delivery

  /** With requests and responses lost at will and others writing to the same log, the events
      logged for the agent stand, in order, for some of the valid lines appended to its file, each
      line at most once; and the engine holds the last 500 entries of that log. */
  lemma DeliveryIsInOrderAtMostOnce(r: Reader, w: World, persistent: bool, moves: seq<Move>)
    requires Begins(r, w, persistent) && r.agentId != "" && AllAllowed(r, persistent, moves)
    ensures var after := Reached(r, w, moves);
      && Embedded(r, Mine(after.full.log, r.agentId), Events(r, Grown(moves), ""))
      && after.console.state.events == LastN(after.full.log, MAX_EVENTS)
  {
    RunHolds(r, w, persistent, moves);
    ProgressIsGrowth(r, moves);
    var after, p := Reached(r, w, moves), ProgressOf(r, moves);
    EventsGrow(r, p.seen, p.unread, "");
    EmbedsInLonger(r, Mine(after.full.log, r.agentId), Events(r, p.seen, ""), Events(r, p.unread, ""));
  }

  /** A move that loses no event: a forward with nothing to send, or one whose request arrives, is
      within the console's limit and has no event with a blank actor or target; an agent restart
      with no valid event unread. */
  ghost predicate LosesNothing(r: Reader, w: World, m: Move) {
    match m
    case ForwardMove(link, now, _) =>
      var batch := Batch(r, w, now);
      batch == [] || (link != Lost && |batch| <= MAX_BATCH && forall i :: 0 <= i < |batch| ==> Acceptable(r.t, ItemOf(batch[i])))
    case AgentRestart => Events(r, UnreadOf(w.file, w.agent.offset), "") == []
    case _ => true
  }

  function Missing(r: Reader, w: World, p: Progress): int {
    |Events(r, p.seen, "")| - |Mine(w.full.log, r.agentId)|
  }

  lemma DeliveredAllIff(r: Reader, w: World, link: Link, now: string, there: Clock)
    ensures Delivered(r, w, link, now) <= |Batch(r, w, now)|
    ensures Delivered(r, w, link, now) == |Batch(r, w, now)| <==> LosesNothing(r, w, ForwardMove(link, now, there))
  {
    var batch := Batch(r, w, now);
    AllAccepted(r.t, ItemsOf(batch));
    assert forall i :: 0 <= i < |batch| ==> ItemsOf(batch)[i] == ItemOf(batch[i]);
  }

  lemma UnreadAddsUp(r: Reader, w: World, start: string, p: Progress, now: string)
    requires LogHolds(r, w, start, p)
    ensures var unread := Events(r, UnreadOf(w.file, w.agent.offset), now);
      |Events(r, p.seen + p.unread, "")| == |Events(r, p.seen, "")| + |unread|
    ensures Raises(r, UnreadOf(w.file, w.agent.offset)) <==> Raises(r, p.unread)
  {
    UnreadIsUnread(w, start + p.seen, p.unread);
    EventsGrow(r, p.seen, p.unread, "");
    LinesSameReading(r, SplitOn(p.unread, '\n'), now, "");
  }

  lemma ForwardMisses(r: Reader, w: World, start: string, p: Progress, link: Link, now: string, there: Clock)
    requires LogHolds(r, w, start, p) && r.agentId != ""
    ensures var m := ForwardMove(link, now, there);
      Missing(r, Moved(r, w, m), Advance(r, p, m))
      == Missing(r, w, p) + |Batch(r, w, now)| - Delivered(r, w, link, now)
  {
    UnreadAddsUp(r, w, start, p, now);
    if Raises(r, p.unread) {
      StuckForward(r, w, start, p, link, now, there);
    } else {
      ForwardLogs(r, w, start, p, link, now, there);
    }
  }

  lemma MoveMisses(r: Reader, w: World, persistent: bool, start: string, p: Progress, m: Move)
    requires LogHolds(r, w, start, p) && r.agentId != "" && Allowed(r, persistent, m)
    ensures Missing(r, Moved(r, w, m), Advance(r, p, m)) >= Missing(r, w, p)
    ensures Missing(r, Moved(r, w, m), Advance(r, p, m)) == Missing(r, w, p) <==> LosesNothing(r, w, m)
  {
    match m
    case ForwardMove(link, now, there) =>
      ForwardMisses(r, w, start, p, link, now, there);
      DeliveredAllIff(r, w, link, now, there);
    case AgentRestart => UnreadAddsUp(r, w, start, p, "");
    case Grow(_) =>
    case _ => OthersKeepMine(r, w, persistent, m);
  }

  ghost predicate NothingLostIn(r: Reader, w: World, moves: seq<Move>) {
    moves == []
    || (var n := |moves| - 1; NothingLostIn(r, w, moves[..n]) && LosesNothing(r, Reached(r, w, moves[..n]), moves[n]))
  }

  lemma {:induction false} MissingGrows(r: Reader, w: World, persistent: bool, moves: seq<Move>)
    requires Begins(r, w, persistent) && r.agentId != "" && AllAllowed(r, persistent, moves)
    ensures Missing(r, Reached(r, w, moves), ProgressOf(r, moves)) >= 0
    ensures Missing(r, Reached(r, w, moves), ProgressOf(r, moves)) == 0 <==> NothingLostIn(r, w, moves)
  {
    if moves == [] {
      NothingInNothing(r);
    } else {
      var n := |moves| - 1;
      RunHolds(r, w, persistent, moves[..n]);
      MissingGrows(r, w, persistent, moves[..n]);
      MoveMisses(r, Reached(r, w, moves[..n]), persistent, w.file, ProgressOf(r, moves[..n]), moves[n]);
    }
  }

  /** The console's log holds one event for each valid line appended, paired in order, exactly when
      no move of the run lost any and no valid line is still unread. */
  lemma DeliveryIsCompleteIff(r: Reader, w: World, persistent: bool, moves: seq<Move>)
    requires Begins(r, w, persistent) && r.agentId != "" && AllAllowed(r, persistent, moves)
    ensures var mine, lines := Mine(Reached(r, w, moves).full.log, r.agentId), Events(r, Grown(moves), "");
      && (|mine| == |lines| <==> NothingLostIn(r, w, moves) && Events(r, ProgressOf(r, moves).unread, "") == [])
      && (|mine| == |lines| ==> forall i :: 0 <= i < |mine| ==> Reports(r, mine[i], lines[i]))
  {
    MissingGrows(r, w, persistent, moves);
    RunHolds(r, w, persistent, moves);
    DeliveryIsInOrderAtMostOnce(r, w, persistent, moves);
    ProgressIsGrowth(r, moves);
    EventsGrow(r, ProgressOf(r, moves).seen, ProgressOf(r, moves).unread, "");
    EmbeddedLength(r, Mine(Reached(r, w, moves).full.log, r.agentId), Events(r, Grown(moves), ""));
  }

  lemma {:induction false} PassedLinesDoNotRaise(r: Reader, moves: seq<Move>)
    requires forall m :: m in moves ==> !m.AgentRestart? && (m.Grow? ==> WholeLines(m.text))
    ensures var p := ProgressOf(r, moves);
      WholeLines(p.seen) && WholeLines(p.unread) && !Raises(r, p.seen)
  {
    if moves == [] {
      NothingInNothing(r);
    } else {
      var n := |moves| - 1;
      var p := ProgressOf(r, moves[..n]);
      PassedLinesDoNotRaise(r, moves[..n]);
      WholeLinesAddUp(r, p.seen, p.unread);
      WholeLinesConcat(p.seen, p.unread);
      assert moves[n] in moves;
      if moves[n].Grow? {
        WholeLinesConcat(p.unread, moves[n].text);
      }
    }
  }

  /** After a forward, with no agent restart before it, something is unread exactly if some line of
      the file raises. */
  lemma UnreadIffALineRaises(r: Reader, moves: seq<Move>)
    requires forall m :: m in moves ==> !m.AgentRestart? && (m.Grow? ==> WholeLines(m.text))
    requires moves != [] && moves[|moves| - 1].ForwardMove?
    ensures ProgressOf(r, moves).unread != "" <==> Raises(r, Grown(moves))
  {
    var p := ProgressOf(r, moves);
    PassedLinesDoNotRaise(r, moves);
    ProgressIsGrowth(r, moves);
    WholeLinesAddUp(r, p.seen, p.unread);
    NothingInNothing(r);
  }

  lemma StuckMove(r: Reader, w: World, persistent: bool, start: string, p: Progress, m: Move)
    requires LogHolds(r, w, start, p) && r.agentId != "" && Raises(r, p.unread)
    requires Allowed(r, persistent, m) && !m.AgentRestart?
    ensures LogHolds(r, Moved(r, w, m), start, Advance(r, p, m)) && Raises(r, Advance(r, p, m).unread)
    ensures Advance(r, p, m).seen == p.seen
    ensures |Mine(Moved(r, w, m).full.log, r.agentId)| == |Mine(w.full.log, r.agentId)|
  {
    MoveKeepsLog(r, w, persistent, start, p, m);
    match m
    case ForwardMove(link, now, there) => StuckForward(r, w, start, p, link, now, there);
    case Grow(text) => WholeLinesAddUp(r, p.unread, text);
    case _ => OthersKeepMine(r, w, persistent, m);
  }

  /** Once a raising line is among the unread ones, nothing more of the file reaches the console,
      whatever is appended and however often the agent forwards, until the agent is restarted -
      and that passes the unread lines over. */
  lemma {:induction false} RaisingLineStopsTheAgent(
      r: Reader, w: World, persistent: bool, start: string, p: Progress, moves: seq<Move>) returns (end: Progress)
    requires LogHolds(r, w, start, p) && r.agentId != "" && Raises(r, p.unread)
    requires AllAllowed(r, persistent, moves) && forall m :: m in moves ==> !m.AgentRestart?
    ensures |Mine(Reached(r, w, moves).full.log, r.agentId)| == |Mine(w.full.log, r.agentId)|
    ensures LogHolds(r, Reached(r, w, moves), start, end) && end.seen == p.seen && Raises(r, end.unread)
  {
    if moves == [] {
      end := p;
    } else {
      var n := |moves| - 1;
      var before := RaisingLineStopsTheAgent(r, w, persistent, start, p, moves[..n]);
      assert moves[n] in moves;
      StuckMove(r, Reached(r, w, moves[..n]), persistent, start, before, moves[n]);
      end := Advance(r, before, moves[n]);
    }
  }

  // ---------------------------------------------------------------- the two counts

  lemma NotedCount(agents: Agents, id: string, n: nat, now: string, me: string)
    requires id != ""
    ensures CountOf(Noted(agents, id, n, now), me) == CountOf(agents, me) + (if id == me then n else 0)
  {
  }

  lemma PostCount(t: CharTable, con: Console, id: string, items: seq<Item>, now: Clock, me: string)
    ensures var posted := Post(t, con, id, items, now);
      CountOf(posted.console.agents, me)
      == CountOf(con.agents, me)
         + (if SenderOf(id) == me && posted.accepted.Some? then posted.accepted.value else 0)
  {
    NotedCount(con.agents, SenderOf(id), Accepted(t, items), now(|items|), me);
  }

  /** What a move does to the gap between the two counts. */
  function NewGap(r: Reader, w: World, m: Move): int {
    match m
    case ForwardMove(link, now, there) =>
      if link == Unanswered then Gap(r, w) + Delivered(r, w, link, now) else Gap(r, w)
    case ReportMove(link, _, _) => if link == Lost || !HeartbeatId(r.t, r.agentId) then Gap(r, w) else 0
    case AgentRestart => Gap(r, w) + w.agent.forwarded
    case _ => Gap(r, w)
  }

  lemma MoveChangesGap(r: Reader, w: World, persistent: bool, m: Move)
    requires Configured(r) && Allowed(r, persistent, m)
    ensures Gap(r, Moved(r, w, m)) == NewGap(r, w, m)
  {
    match m
    case ForwardMove(link, now, there) =>
      PostCount(r.t, w.console, r.agentId, ItemsOf(Batch(r, w, now)), there, r.agentId);
    case OtherPost(id, items, there) => PostCount(r.t, w.console, id, items, there, r.agentId);
    case _ =>
  }

  /** The console's count of the agent's events is never below the agent's own. */
  lemma {:induction false} ConsoleCountIsNeverBehind(r: Reader, w: World, persistent: bool, moves: seq<Move>)
    requires Begins(r, w, persistent) && Configured(r) && AllAllowed(r, persistent, moves)
    ensures Gap(r, Reached(r, w, moves)) >= 0
  {
    if moves != [] {
      var n := |moves| - 1;
      ConsoleCountIsNeverBehind(r, w, persistent, moves[..n]);
      MoveChangesGap(r, Reached(r, w, moves[..n]), persistent, moves[n]);
    }
  }

  /** Moves that leave the gap as it is: any but a forward whose response is lost after events were
      accepted, and an agent restart that forgets a count. */
  ghost predicate KeepsGap(r: Reader, w: World, m: Move) {
    match m
    case ForwardMove(link, now, _) => link != Unanswered || Delivered(r, w, link, now) == 0
    case AgentRestart => w.agent.forwarded == 0
    case _ => true
  }

  ghost predicate AllKeepGap(r: Reader, w: World, moves: seq<Move>) {
    moves == []
    || (var n := |moves| - 1; AllKeepGap(r, w, moves[..n]) && KeepsGap(r, Reached(r, w, moves[..n]), moves[n]))
  }

  lemma {:induction false} EqualStaysEqualIff(r: Reader, w: World, persistent: bool, moves: seq<Move>)
    requires Configured(r) && AllAllowed(r, persistent, moves) && Gap(r, w) == 0
    requires forall m :: m in moves ==> m.ReportMove? ==> m.link == Lost
    ensures Gap(r, Reached(r, w, moves)) >= 0
    ensures Gap(r, Reached(r, w, moves)) == 0 <==> AllKeepGap(r, w, moves)
  {
    if moves != [] {
      var n := |moves| - 1;
      EqualStaysEqualIff(r, w, persistent, moves[..n]);
      MoveChangesGap(r, Reached(r, w, moves[..n]), persistent, moves[n]);
    }
  }

  /** With an id the console takes: right after a processed heartbeat the counts are equal, answered or not; and until the next
      one they stay equal exactly while no ingest loses its response after accepting events and the
      agent does not restart with a count to forget. */
  lemma HeartbeatsSettleTheCounts(
      r: Reader, w: World, persistent: bool, link: Link, about: Heartbeat, there: string, moves: seq<Move>)
    requires Configured(r) && HeartbeatId(r.t, r.agentId) && AllAllowed(r, persistent, moves) && link != Lost
    requires forall m :: m in moves ==> m.ReportMove? ==> m.link == Lost
    ensures var settled := Moved(r, w, ReportMove(link, about, there));
      && Gap(r, settled) == 0
      && (Gap(r, Reached(r, settled, moves)) == 0 <==> AllKeepGap(r, settled, moves))
  {
    MoveChangesGap(r, w, persistent, ReportMove(link, about, there));
    EqualStaysEqualIff(r, Moved(r, w, ReportMove(link, about, there)), persistent, moves);
  }
}
