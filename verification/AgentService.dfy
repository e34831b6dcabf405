/** The agent's loop and the console's endpoints as objects, each call held to its meaning in
    `AgentProtocol`. */
module AgentService {
  import opened Text
  import opened Monitoring
  import opened MonitoringEngine
  import opened Collectors
  import opened CollectorRuns
  import opened AgentRegistry
  import opened AgentProtocol

  class ConsoleServer {
    const engine: Engine
    const registry: Registry

    constructor (engine: Engine, registry: Registry)
      requires engine.t == registry.t
      ensures this.engine == engine && this.registry == registry
    {
      this.engine, this.registry := engine, registry;
    }

    ghost function View(): Console
      reads engine, registry
    {
      Console(engine.View(), registry.agents)
    }

    /** `None`: refused, with nothing recorded, because the batch is too large. */
    method PostIngest(id: string, items: seq<Item>, now: Clock) returns (accepted: Option<nat>)
      modifies engine, registry
      ensures Posted(View(), accepted) == Post(engine.t, old(View()), id, items, now)
    {
      if items == [] {
        return Some(0);
      }
      if |items| > MAX_BATCH {
        return None;
      }
      var created, errors := engine.IngestEvents(items, SenderOf(id), now);
      registry.NoteIngest(SenderOf(id), |created|, now(|items|));
      accepted := Some(|created|);
    }

    method PostHeartbeat(id: string, h: Heartbeat, now: string) returns (refused: bool)
      requires engine.t == registry.t
      modifies registry
      ensures refused <==> !HeartbeatId(engine.t, id)
      ensures View() == if refused then old(View()) else old(View()).(agents := Heard(old(registry.agents), Strip(engine.t, id), h, now))
    {
      if |id| > MAX_ID {
        return true;
      }
      StripTwice(engine.t, id);
      refused := registry.OnHeartbeat(Strip(engine.t, id), h, now);
    }
  }

  /** What one turn of the loop meets: the file, the clocks of both sides, the fate of the two requests. */
  datatype Turn = Turn(file: string, now: string, there: Clock, later: string, clock: real, ingest: Link, heartbeat: Link)

  /** The agent and the console after a turn, and when the last heartbeat got through. */
  datatype Ticked = Ticked(pair: Pair, lastHeartbeat: real)

  function TurnOf(r: Reader, about: Heartbeat, interval: real, s: Ticked, turn: Turn): Ticked {
    var p := Forward(r, s.pair, turn.file, turn.ingest, turn.now, turn.there);
    if turn.clock - s.lastHeartbeat < interval then Ticked(p, s.lastHeartbeat)
    else
      Ticked(Report(r, p, turn.heartbeat, about, turn.later),
             if turn.heartbeat == Answered && HeartbeatId(r.t, r.agentId) then turn.clock else s.lastHeartbeat)
  }

  /** A heartbeat is sent exactly when one is due, and puts off the next exactly when it is answered and
      the console takes the id. */
  lemma HeartbeatWhenDue(r: Reader, about: Heartbeat, interval: real, s: Ticked, turn: Turn)
    ensures var after, forwarded := TurnOf(r, about, interval, s, turn), Forward(r, s.pair, turn.file, turn.ingest, turn.now, turn.there);
      && (turn.clock < s.lastHeartbeat + interval ==> after.pair == forwarded)
      && (turn.clock >= s.lastHeartbeat + interval && turn.heartbeat != Lost && !AllSpace(r.t, r.agentId) && |r.agentId| <= 128 ==>
            after.pair.console.agents
            == Heard(forwarded.console.agents, Strip(r.t, r.agentId), HeartbeatOf(forwarded.agent, about), turn.later))
      && after.lastHeartbeat
         == if turn.clock >= s.lastHeartbeat + interval && turn.heartbeat == Answered
               && !AllSpace(r.t, r.agentId) && |r.agentId| <= 128
            then turn.clock else s.lastHeartbeat
  {
    StripIsBlankIff(r.t, r.agentId);
  }

  class AgentService {
    const collector: FileEventCollector
    const console: ConsoleServer
    const about: Heartbeat
    const interval: real
    var forwarded: nat
    var status: string
    var lastHeartbeat: real

    constructor (collector: FileEventCollector, console: ConsoleServer, about: Heartbeat, interval: real)
      ensures this.collector == collector && this.console == console
      ensures this.about == about && this.interval == interval
      ensures forwarded == 0 && status == "ok" && lastHeartbeat == 0.0
    {
      this.collector, this.console, this.about, this.interval := collector, console, about, interval;
      forwarded, status, lastHeartbeat := 0, "ok", 0.0;
    }

    ghost predicate Valid()
      reads this, console, collector
    {
      console.engine.t == console.registry.t == collector.r.t
    }

    ghost function View(): Pair
      reads this, collector, console, console.engine, console.registry
    {
      Pair(Agent(collector.offset, forwarded, status), console.View())
    }

    /** The first half of a turn: any failure leaves the count alone and the status at "error". */
    method ForwardOnce(file: string, link: Link, now: string, there: Clock)
      requires Valid()
      modifies this`forwarded, this`status, collector, console.engine, console.registry
      ensures View() == Forward(collector.r, old(View()), file, link, now, there)
    {
      var events, raised := collector.Poll(Some(file), now);
      status := "ok";
      if events == [] {
        return;
      }
      if link == Lost {
        status := "error";
        return;
      }
      var accepted := console.PostIngest(collector.r.agentId, ItemsOf(events), there);
      if accepted.None? || link == Unanswered {
        status := "error";
        return;
      }
      forwarded := forwarded + accepted.value;
    }

    /** The second half: the heartbeat. */
    method ReportOnce(link: Link, there: string) returns (through: bool)
      requires Valid()
      modifies this`status, console.registry
      ensures View() == Report(collector.r, old(View()), link, about, there)
      ensures through <==> link == Answered && HeartbeatId(collector.r.t, collector.r.agentId)
    {
      if link == Lost {
        status := "error";
        return false;
      }
      var h := about.(status := status, eventsForwarded := Some(forwarded));
      var refused := console.PostHeartbeat(collector.r.agentId, h, there);
      through := link == Answered && !refused;
      if !through {
        status := "error";
      }
    }

    /** One turn of the service loop. */
    method RunTurn(turn: Turn)
      requires Valid()
      modifies this, collector, console.engine, console.registry
      ensures Ticked(View(), lastHeartbeat)
           == TurnOf(collector.r, about, interval, old(Ticked(View(), lastHeartbeat)), turn)
    {
      ForwardOnce(turn.file, turn.ingest, turn.now, turn.there);
      if turn.clock - lastHeartbeat >= interval {
        var through := ReportOnce(turn.heartbeat, turn.later);
        if through {
          lastHeartbeat := turn.clock;
        }
      }
    }
  }

  /** A turn is one or two moves of the protocol: a forward, and a report when one is due. */
  lemma TurnIsMoves(r: Reader, about: Heartbeat, interval: real, w: World, last: real, turn: Turn)
    requires turn.file == w.file
    ensures var forward := ForwardMove(turn.ingest, turn.now, turn.there);
      var report := ReportMove(turn.heartbeat, about, turn.later);
      var moves := if turn.clock - last < interval then [forward] else [forward, report];
      PairOf(Reached(r, w, moves)) == TurnOf(r, about, interval, Ticked(PairOf(w), last), turn).pair
  {
    var forward := ForwardMove(turn.ingest, turn.now, turn.there);
    var report := ReportMove(turn.heartbeat, about, turn.later);
    assert [forward][..0] == [] && [forward, report][..1] == [forward];
    assert Reached(r, w, []) == w;
    assert Reached(r, w, [forward]) == Moved(r, w, forward);
    assert Reached(r, w, [forward, report]) == Moved(r, Reached(r, w, [forward]), report);
  }
}
