/** The console's record of each agent: heartbeats and forwarded events. */
module AgentRegistry {
  import opened Text

  datatype LastBeat = LastBeat(status: string, receivedAt: string)

  datatype AgentRecord = AgentRecord(
    hostname: string, version: string, status: string, vmName: string, capability: seq<string>,
    lastSeen: string, lastHeartbeat: Option<LastBeat>, eventsForwarded: int, meta: map<string, string>)

  /** The fields of a heartbeat; `None` stands for an absent value. */
  datatype Heartbeat = Heartbeat(
    hostname: string, version: string, status: string, vmName: string, capability: Option<seq<string>>,
    eventsForwarded: Option<int>, meta: map<string, string>)

  type Agents = map<string, AgentRecord>

  function NewRecord(status: string, lastSeen: string): AgentRecord {
    AgentRecord("", "", status, "", [], lastSeen, None, 0, map[])
  }

  /** What a heartbeat makes of a record: blank fields keep the old ones, the agent's own count
      replaces the console's, and extra facts are added. */
  function Beaten(r: AgentRecord, h: Heartbeat, now: string): AgentRecord {
    AgentRecord(
      Or(h.hostname, r.hostname), Or(h.version, r.version), Or(h.status, "ok"), Or(h.vmName, r.vmName),
      if h.capability.Some? then h.capability.value else r.capability,
      now, Some(LastBeat(Or(h.status, "ok"), now)),
      if h.eventsForwarded.None? then r.eventsForwarded
      else if h.eventsForwarded.value < 0 then 0 else h.eventsForwarded.value,
      r.meta + h.meta)
  }

  function Noted(agents: Agents, id: string, accepted: int, now: string): Agents {
    if id == "" || accepted <= 0 then agents
    else
      var r := if id in agents then agents[id] else NewRecord("ok", now);
      agents[id := r.(eventsForwarded := r.eventsForwarded + accepted, lastSeen := now)]
  }

  function Heard(agents: Agents, id: string, h: Heartbeat, now: string): Agents {
    agents[id := Beaten(if id in agents then agents[id] else NewRecord("unknown", ""), h, now)]
  }

  /** The record a heartbeat leaves: what it gives, and what was there where it gives nothing. */
  lemma HeartbeatSays(agents: Agents, id: string, h: Heartbeat, now: string)
    ensures var after := Heard(agents, id, h, now);
      && (forall other :: other != id ==> (other in after <==> other in agents) && (other in agents ==> after[other] == agents[other]))
      && id in after
      && var r, known := after[id], id in agents;
         && r.hostname == (if h.hostname != "" then h.hostname else if known then agents[id].hostname else "")
         && r.version == (if h.version != "" then h.version else if known then agents[id].version else "")
         && r.vmName == (if h.vmName != "" then h.vmName else if known then agents[id].vmName else "")
         && r.status == (if h.status != "" then h.status else "ok")
         && r.capability == (if h.capability.Some? then h.capability.value else if known then agents[id].capability else [])
         && r.lastSeen == now && r.lastHeartbeat == Some(LastBeat(r.status, now))
         && (h.eventsForwarded.Some? ==> r.eventsForwarded >= 0)
         && (h.eventsForwarded.Some? && h.eventsForwarded.value >= 0 ==> r.eventsForwarded == h.eventsForwarded.value)
         && (h.eventsForwarded.Some? && h.eventsForwarded.value < 0 ==> r.eventsForwarded == 0)
         && (h.eventsForwarded.None? ==> r.eventsForwarded == if known then agents[id].eventsForwarded else 0)
         && (forall k :: k in h.meta ==> k in r.meta && r.meta[k] == h.meta[k])
         && (forall k :: k !in h.meta ==> (k in r.meta <==> (known && k in agents[id].meta)))
         && (known ==> forall k :: k !in h.meta && k in agents[id].meta ==> r.meta[k] == agents[id].meta[k])
  {
  }

  /** Noting accepted events adds them to one record, made if it is new, and marks it seen. */
  lemma NoteSays(agents: Agents, id: string, accepted: int, now: string)
    ensures var after := Noted(agents, id, accepted, now);
      if id == "" || accepted <= 0 then after == agents
      else
        && id in after && after[id].lastSeen == now
        && after[id].eventsForwarded == (if id in agents then agents[id].eventsForwarded else 0) + accepted
        && (id in agents ==> after == agents[id := agents[id].(eventsForwarded := after[id].eventsForwarded, lastSeen := now)])
        && (id !in agents ==> after == agents[id := after[id]] && after[id].status == "ok" && after[id].hostname == ""
                              && after[id].lastHeartbeat.None?)
  {
  }

  class Registry {
    const t: CharTable
    var agents: Agents

    constructor (t: CharTable)
      ensures this.t == t && agents == map[]
    {
      this.t := t;
      agents := map[];
    }

    /** Refused when the id is blank. */
    method OnHeartbeat(id: string, h: Heartbeat, now: string) returns (refused: bool)
      modifies this
      ensures refused <==> Strip(t, id) == ""
      ensures agents == if refused then old(agents) else Heard(old(agents), id, h, now)
    {
      if Strip(t, id) == "" {
        return true;
      }
      var record := if id in agents then agents[id] else NewRecord("unknown", "");
      record := record.(hostname := Or(h.hostname, record.hostname));
      record := record.(version := Or(h.version, record.version));
      record := record.(status := Or(h.status, "ok"));
      record := record.(vmName := Or(h.vmName, record.vmName));
      if h.capability.Some? {
        record := record.(capability := h.capability.value);
      }
      if h.eventsForwarded.Some? {
        record := record.(eventsForwarded := if h.eventsForwarded.value < 0 then 0 else h.eventsForwarded.value);
      }
      record := record.(meta := record.meta + h.meta);
      record := record.(lastSeen := now, lastHeartbeat := Some(LastBeat(record.status, now)));
      agents := agents[id := record];
      refused := false;
    }

    method NoteIngest(id: string, accepted: int, now: string)
      modifies this
      ensures agents == Noted(old(agents), id, accepted, now)
    {
      if id == "" || accepted <= 0 {
        return;
      }
      var record := if id in agents then agents[id] else NewRecord("ok", now);
      record := record.(eventsForwarded := record.eventsForwarded + accepted);
      record := record.(lastSeen := now);
      agents := agents[id := record];
    }
  }
}
