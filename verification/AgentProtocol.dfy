/** The agent and the console over a network that loses requests and responses: what of a
    tailed file reaches the console's log, and how the two event counts stay related. */
module AgentProtocol {
  import opened Text
  import opened Runs
  import opened Monitoring
  import opened MonitoringRuns
  import opened Collectors
  import opened CollectorRuns
  import opened AgentRegistry

  const MAX_BATCH: nat := 100

  /** A request that was never processed, one whose response was lost, one that was answered. */
  datatype Link = Lost | Unanswered | Answered

  // ---------------------------------------------------------------- the console's two endpoints

  datatype Console = Console(state: State, agents: Agents)

  function SenderOf(id: string): string { if id != "" then id else "washu-agent" }

  /** An ingest request as processed: the console after it, and how many were accepted
      (`None`: refused as too large). */
  datatype Posted = Posted(console: Console, accepted: Option<nat>)

  function Post(t: CharTable, con: Console, id: string, items: seq<Item>, now: Clock): Posted {
    if items == [] then Posted(con, Some(0))
    else if |items| > MAX_BATCH then Posted(con, None)
    else
      var n := Accepted(t, items);
      Posted(Console(Ingest(t, con.state, items, SenderOf(id), now), Noted(con.agents, SenderOf(id), n, now(|items|))), Some(n))
  }

  const MAX_ID: nat := 128

  /** The ids the heartbeat endpoint takes: at most 128 characters as sent, and not blank. */
  predicate HeartbeatId(t: CharTable, id: string) { |id| <= MAX_ID && Strip(t, id) != "" }

  /** A heartbeat as processed. */
  function Hear(t: CharTable, con: Console, id: string, h: Heartbeat, now: string): Console {
    if HeartbeatId(t, id) then con.(agents := Heard(con.agents, Strip(t, id), h, now)) else con
  }

  // ---------------------------------------------------------------- the agent

  function ItemOf(c: Collected): Item {
    Item.Item(Some(c.eventId), c.actor, c.target, c.severity, c.source, c.description, c.timestamp, c.agentId)
  }

  function ItemsOf(cs: seq<Collected>): (r: seq<Item>)
    ensures |r| == |cs|
  {
    seq(|cs|, i requires 0 <= i < |cs| => ItemOf(cs[i]))
  }

  datatype Agent = Agent(offset: nat, forwarded: nat, status: string)

  function StartOf(file: string, offset: nat): nat { if |file| < offset then 0 else offset }

  function UnreadOf(file: string, offset: nat): string { file[StartOf(file, offset)..] }

  /** What a poll returns of a stretch: nothing if a line raises. */
  function Polled(r: Reader, unread: string, now: string): seq<Collected> {
    if Raises(r, unread) then [] else Events(r, unread, now)
  }

  datatype Pair = Pair(agent: Agent, console: Console)

  /** Polling the file and sending what it holds.  A poll that raises counts as one that found
      nothing, and leaves the place in the file; otherwise that moves before anything is sent, and
      an exception in sending leaves the count alone. */
  function Forward(r: Reader, p: Pair, file: string, link: Link, now: string, there: Clock): Pair {
    var unread := UnreadOf(file, p.agent.offset);
    var events := Polled(r, unread, now);
    var agent := p.agent.(offset := if Raises(r, unread) then StartOf(file, p.agent.offset) else |file|);
    if events == [] then Pair(agent.(status := "ok"), p.console)
    else if link == Lost then Pair(agent.(status := "error"), p.console)
    else
      var posted := Post(r.t, p.console, r.agentId, ItemsOf(events), there);
      if posted.accepted.None? || link == Unanswered then Pair(agent.(status := "error"), posted.console)
      else Pair(agent.(forwarded := agent.forwarded + posted.accepted.value, status := "ok"), posted.console)
  }

  function HeartbeatOf(agent: Agent, about: Heartbeat): Heartbeat {
    about.(status := agent.status, eventsForwarded := Some(agent.forwarded))
  }

  /** Sending the status and the count; `about` holds what else a heartbeat says. */
  function Report(r: Reader, p: Pair, link: Link, about: Heartbeat, there: string): Pair {
    if link == Lost then p.(agent := p.agent.(status := "error"))
    else
      var console := Hear(r.t, p.console, r.agentId, HeartbeatOf(p.agent, about), there);
      var heard := link == Answered && HeartbeatId(r.t, r.agentId);
      Pair(if heard then p.agent else p.agent.(status := "error"), console)
  }

  // ---------------------------------------------------------------- the whole system

  /** The tailed file, the agent, the console, and the console's log as if it never forgot. */
  datatype World = World(file: string, agent: Agent, console: Console, full: Full)

  datatype Move =
    | Grow(text: string)
    | ForwardMove(link: Link, now: string, clock: Clock)
    | ReportMove(link: Link, about: Heartbeat, there: string)
    | AgentRestart
    | OtherPost(id: string, items: seq<Item>, clock: Clock)
    | OtherReport(id: string, h: Heartbeat, there: string)
    | OtherCall(op: MonitoringRuns.Op)

  function FullPost(t: CharTable, f: Full, id: string, items: seq<Item>, now: Clock): Full {
    if items == [] || |items| > MAX_BATCH then f else FullIngest(t, f, items, SenderOf(id), now)
  }

  function PairOf(w: World): Pair { Pair(w.agent, w.console) }

  function Batch(r: Reader, w: World, now: string): seq<Collected> {
    Polled(r, UnreadOf(w.file, w.agent.offset), now)
  }

  function Moved(r: Reader, w: World, m: Move): World {
    match m
    case Grow(text) => w.(file := w.file + text)
    case ForwardMove(link, now, there) =>
      var p := Forward(r, PairOf(w), w.file, link, now, there);
      World(w.file, p.agent, p.console,
            if link == Lost then w.full else FullPost(r.t, w.full, r.agentId, ItemsOf(Batch(r, w, now)), there))
    case ReportMove(link, about, there) =>
      var p := Report(r, PairOf(w), link, about, there);
      w.(agent := p.agent, console := p.console)
    case AgentRestart => w.(agent := Agent(|w.file|, 0, "ok"))
    case OtherPost(id, items, there) =>
      w.(console := Post(r.t, w.console, id, items, there).console, full := FullPost(r.t, w.full, id, items, there))
    case OtherReport(id, h, there) => w.(console := Hear(r.t, w.console, id, h, there))
    case OtherCall(op) =>
      w.(console := w.console.(state := MonitoringRuns.Step(r.t, w.console.state, op)), full := FullStep(r.t, w.full, op))
  }

  function Mover(r: Reader): (World, Move) -> World { (w, m) => Moved(r, w, m) }

  function Reached(r: Reader, w: World, moves: seq<Move>): World { Fold(Mover(r), w, moves) }

  /** What the rest of the world may do: anything but speak for this agent.  The file grows by
      whole lines, and an engine that is restarted has a store. */
  predicate Allowed(r: Reader, persistent: bool, m: Move) {
    match m
    case Grow(text) => WholeLines(text)
    case OtherPost(id, _, _) => SenderOf(id) != r.agentId
    case OtherReport(id, _, _) => Strip(r.t, id) != r.agentId
    case OtherCall(op) =>
      && !op.IngestOp?
      && (op.RecordOp? ==> op.args.agentId != r.agentId)
      && (op.RestartOp? ==> persistent)
    case _ => true
  }

  ghost predicate AllAllowed(r: Reader, persistent: bool, moves: seq<Move>) {
    forall m :: m in moves ==> Allowed(r, persistent, m)
  }

  /** The agent's id as its configuration leaves it: stripped, and not blank. */
  predicate Configured(r: Reader) { Strip(r.t, r.agentId) == r.agentId && r.agentId != "" }

  // ---------------------------------------------------------------- the agent's part of the log

  predicate IsMine(e: Event, me: string) { e.ingested && e.agentId == me }

  function Mine(log: seq<Event>, me: string): seq<Event> {
    if log == [] then []
    else
      var n := |log| - 1;
      Mine(log[..n], me) + (if IsMine(log[n], me) then [log[n]] else [])
  }

  /** A logged event stands for a collected one: same event, actor, target, source, and time if
      the line gave one. */
  predicate Reports(r: Reader, e: Event, c: Collected) {
    && e.eventId == c.eventId
    && e.actor == Strip(r.t, c.actor)
    && e.target == Strip(r.t, c.target)
    && e.source == (if c.source != "" then c.source else r.agentId)
    && (c.dated && c.timestamp != "" ==> e.timestamp == c.timestamp)
  }

  /** The logged events stand, in order, for some of the collected ones, each used at most once. */
  predicate Embedded(r: Reader, es: seq<Event>, cs: seq<Collected>)
    decreases |cs|
  {
    es == []
    || (cs != [] && (
          || Embedded(r, es, cs[..|cs| - 1])
          || (Reports(r, es[|es| - 1], cs[|cs| - 1]) && Embedded(r, es[..|es| - 1], cs[..|cs| - 1]))))
  }

  lemma EmbedsLess(r: Reader, es: seq<Event>, cs: seq<Collected>, c: Collected)
    requires Embedded(r, es, cs)
    ensures Embedded(r, es, cs + [c])
  {
    assert (cs + [c])[..|cs + [c]| - 1] == cs;
  }

  lemma EmbedsOneMore(r: Reader, es: seq<Event>, e: Event, cs: seq<Collected>, c: Collected)
    requires Embedded(r, es, cs) && Reports(r, e, c)
    ensures Embedded(r, es + [e], cs + [c])
  {
    assert (cs + [c])[..|cs + [c]| - 1] == cs;
    assert (es + [e])[..|es + [e]| - 1] == es;
  }

  lemma {:induction false} EmbedsInLonger(r: Reader, es: seq<Event>, cs: seq<Collected>, more: seq<Collected>)
    requires Embedded(r, es, cs)
    ensures Embedded(r, es, cs + more)
  {
    if more == [] {
      assert cs + more == cs;
    } else {
      var n := |more| - 1;
      EmbedsInLonger(r, es, cs, more[..n]);
      EmbedsLess(r, es, cs + more[..n], more[n]);
      assert cs + more[..n] + [more[n]] == cs + more;
    }
  }

  /** An embedding is never longer, and one of the same length pairs the two lists up. */
  lemma {:induction false} EmbeddedLength(r: Reader, es: seq<Event>, cs: seq<Collected>)
    requires Embedded(r, es, cs)
    ensures |es| <= |cs|
    ensures |es| == |cs| ==> forall i :: 0 <= i < |es| ==> Reports(r, es[i], cs[i])
    decreases |cs|
  {
    if es != [] {
      var e', c' := es[..|es| - 1], cs[..|cs| - 1];
      if Embedded(r, es, c') {
        EmbeddedLength(r, es, c');
      } else {
        EmbeddedLength(r, e', c');
        if |es| == |cs| {
          forall i | 0 <= i < |es| ensures Reports(r, es[i], cs[i]) {
            if i < |e'| {
              assert Reports(r, e'[i], c'[i]);
            }
          }
        }
      }
    }
  }

  // ---------------------------------------------------------------- flags may change

  /** The same events but for their acknowledged flags. */
  ghost predicate SameBut(a: seq<Event>, b: seq<Event>) {
    |a| == |b| && forall i :: 0 <= i < |a| ==> b[i] == a[i].(acknowledged := b[i].acknowledged)
  }

  lemma {:induction false} MineSameBut(a: seq<Event>, b: seq<Event>, me: string)
    requires SameBut(a, b)
    ensures SameBut(Mine(a, me), Mine(b, me))
  {
    if a != [] {
      var n := |a| - 1;
      MineSameBut(a[..n], b[..n], me);
      assert b[n] == a[n].(acknowledged := b[n].acknowledged);
    }
  }

  lemma {:induction false} EmbeddedSameBut(r: Reader, a: seq<Event>, b: seq<Event>, cs: seq<Collected>)
    requires SameBut(a, b) && Embedded(r, a, cs)
    ensures Embedded(r, b, cs)
    decreases |cs|
  {
    if a != [] {
      var n, k := |a| - 1, |cs| - 1;
      if Embedded(r, a, cs[..k]) {
        EmbeddedSameBut(r, a, b, cs[..k]);
      } else {
        EmbeddedSameBut(r, a[..n], b[..n], cs[..k]);
        assert b[n] == a[n].(acknowledged := b[n].acknowledged);
      }
    }
  }

  // ---------------------------------------------------------------- others' calls

  lemma MineAppend(log: seq<Event>, e: Event, me: string)
    ensures Mine(log + [e], me) == Mine(log, me) + (if IsMine(e, me) then [e] else [])
  {
    assert (log + [e])[..|log + [e]| - 1] == log;
  }

  lemma {:induction false} OthersIngest(t: CharTable, f: Full, items: seq<Item>, id: string, now: Clock, me: string)
    requires id != "" && id != me
    ensures Mine(FullIngest(t, f, items, id, now).log, me) == Mine(f.log, me)
  {
    if items != [] {
      var n := |items| - 1;
      OthersIngest(t, f, items[..n], id, now, me);
      if Acceptable(t, items[n]) {
        var f' := FullIngest(t, f, items[..n], id, now);
        var a := ArgsOf(t, items[n], id);
        MineAppend(f'.log, BuildEvent(a, Decide(t, f'.honey, a), |f'.log| + 1, now(n)), me);
      }
    }
  }

  lemma SimulatedIsNotIngested(honey: seq<Honey>, picks: nat -> Pick, host: string, now: Clock, i: nat, uid: int)
    requires honey != []
    ensures !SimulationOf(honey, picks, host, now)(i, uid).ingested
  {
    assert SimulationOf(honey, picks, host, now)(i, uid) == SimulatedEvent(honey, picks(i), host, uid, now(i));
  }

  lemma {:induction false} ManyAreNotMine(f: Full, n: nat, make: (nat, int) -> Event, me: string)
    requires forall i: nat, uid: int :: !make(i, uid).ingested
    ensures Mine(FullMany(f, n, make).log, me) == Mine(f.log, me)
  {
    if n > 0 {
      ManyAreNotMine(f, n - 1, make, me);
      var f' := FullMany(f, n - 1, make);
      MineAppend(f'.log, make(n - 1, |f'.log| + 1), me);
    }
  }

  lemma SimulatedAreNotMine(f: Full, n: nat, honey: seq<Honey>, picks: nat -> Pick, host: string, now: Clock, me: string)
    requires honey != []
    ensures Mine(FullMany(f, n, SimulationOf(honey, picks, host, now)).log, me) == Mine(f.log, me)
  {
    forall i: nat, uid: int ensures !SimulationOf(honey, picks, host, now)(i, uid).ingested {
      SimulatedIsNotIngested(honey, picks, host, now, i, uid);
    }
    ManyAreNotMine(f, n, SimulationOf(honey, picks, host, now), me);
  }

  lemma OthersAcknowledge(f: Full, uid: int, me: string)
    ensures SameBut(Mine(f.log, me), Mine(FullAcknowledge(f, uid).log, me))
  {
    MineSameBut(f.log, FullAcknowledge(f, uid).log, me);
  }

  lemma OthersAcknowledgeAll(f: Full, me: string)
    ensures SameBut(Mine(f.log, me), Mine(FullAcknowledgeAll(f).log, me))
  {
    var k := Oldest(|f.log|);
    assert f.log == f.log[..k] + f.log[k..];
    MineSameBut(f.log, FullAcknowledgeAll(f).log, me);
  }

  lemma OthersRecord(t: CharTable, f: Full, a: RecordArgs, now: string, me: string)
    requires a.agentId != me
    ensures Mine(FullStep(t, f, RecordOp(a, now)).log, me) == Mine(f.log, me)
  {
    MineAppend(f.log, BuildEvent(a, Decide(t, f.honey, a), |f.log| + 1, now), me);
  }

  lemma OthersCall(r: Reader, persistent: bool, f: Full, op: MonitoringRuns.Op)
    requires Allowed(r, persistent, OtherCall(op))
    ensures SameBut(Mine(f.log, r.agentId), Mine(FullStep(r.t, f, op).log, r.agentId))
  {
    match op
    case RecordOp(a, now) => OthersRecord(r.t, f, a, now, r.agentId);
    case SimulateOp(count, picks, host, now) =>
      if f.honey != [] {
        SimulatedAreNotMine(f, SimulationCount(count), f.honey, picks, host, now, r.agentId);
      }
    case AcknowledgeOp(uid) => OthersAcknowledge(f, uid, r.agentId);
    case AcknowledgeAllOp => OthersAcknowledgeAll(f, r.agentId);
    case _ =>
  }

  // ---------------------------------------------------------------- the agent's own ingest

  lemma RecordedReports(r: Reader, f: Full, c: Collected, now: string)
    requires r.agentId != "" && Acceptable(r.t, ItemOf(c))
    ensures var a := ArgsOf(r.t, ItemOf(c), r.agentId);
      var e := BuildEvent(a, Decide(r.t, f.honey, a), |f.log| + 1, now);
      IsMine(e, r.agentId) && Reports(r, e, c)
  {
  }

  lemma ReportsUndated(r: Reader, e: Event, c: Collected, d: Collected)
    requires Reports(r, e, c) && Undated(c) == Undated(d) && c.dated == d.dated
    ensures Reports(r, e, d)
  {
  }

  /** Two readings of the same lines, at two times. */
  ghost predicate SameReading(cs: seq<Collected>, ds: seq<Collected>) {
    |cs| == |ds| && forall i :: 0 <= i < |cs| ==> Undated(cs[i]) == Undated(ds[i]) && cs[i].dated == ds[i].dated
  }

  lemma OwnItem(r: Reader, f: Full, seen: seq<Collected>, c: Collected, d: Collected, now: string)
    requires r.agentId != "" && Embedded(r, Mine(f.log, r.agentId), seen)
    requires Undated(c) == Undated(d) && c.dated == d.dated
    ensures var log := FullIngestItem(r.t, f, ItemOf(c), r.agentId, now).log;
      && Embedded(r, Mine(log, r.agentId), seen + [d])
      && |Mine(log, r.agentId)| == |Mine(f.log, r.agentId)| + (if Acceptable(r.t, ItemOf(c)) then 1 else 0)
  {
    if Acceptable(r.t, ItemOf(c)) {
      var a := ArgsOf(r.t, ItemOf(c), r.agentId);
      var e := BuildEvent(a, Decide(r.t, f.honey, a), |f.log| + 1, now);
      RecordedReports(r, f, c, now);
      ReportsUndated(r, e, c, d);
      MineAppend(f.log, e, r.agentId);
      EmbedsOneMore(r, Mine(f.log, r.agentId), e, seen, d);
    } else {
      EmbedsLess(r, Mine(f.log, r.agentId), seen, d);
    }
  }

  lemma LastItem(t: CharTable, f: Full, cs: seq<Collected>, id: string, now: Clock)
    requires cs != []
    ensures var n := |cs| - 1;
      && FullIngest(t, f, ItemsOf(cs), id, now)
         == FullIngestItem(t, FullIngest(t, f, ItemsOf(cs[..n]), id, now), ItemOf(cs[n]), id, now(n))
      && Accepted(t, ItemsOf(cs)) == Accepted(t, ItemsOf(cs[..n])) + (if Acceptable(t, ItemOf(cs[n])) then 1 else 0)
  {
    assert ItemsOf(cs)[..|cs| - 1] == ItemsOf(cs[..|cs| - 1]);
  }

  lemma LastBehind<T>(seen: seq<T>, ds: seq<T>)
    requires ds != []
    ensures seen + ds == (seen + ds[..|ds| - 1]) + [ds[|ds| - 1]]
  {
  }

  lemma {:induction false} OwnIngest(
      r: Reader, f: Full, seen: seq<Collected>, cs: seq<Collected>, ds: seq<Collected>, now: Clock)
    requires r.agentId != "" && Embedded(r, Mine(f.log, r.agentId), seen) && SameReading(cs, ds)
    ensures var log := FullIngest(r.t, f, ItemsOf(cs), r.agentId, now).log;
      && Embedded(r, Mine(log, r.agentId), seen + ds)
      && |Mine(log, r.agentId)| == |Mine(f.log, r.agentId)| + Accepted(r.t, ItemsOf(cs))
    decreases |cs|
  {
    if cs == [] {
      NothingAfter(seen, ds);
    } else {
      var n := |cs| - 1;
      OwnIngest(r, f, seen, cs[..n], ds[..n], now);
      OwnItem(r, FullIngest(r.t, f, ItemsOf(cs[..n]), r.agentId, now), seen + ds[..n], cs[n], ds[n], now(n));
      LastItem(r.t, f, cs, r.agentId, now);
      LastBehind(seen, ds);
    }
  }
}
