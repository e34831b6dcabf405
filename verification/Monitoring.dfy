/** The monitoring engine's data and the pure meaning of each public call: correlation,
    the capped event log, the uid counter, the honey registry and the file behind them. */
module Monitoring {
  import opened Text

  const MAX_EVENTS: nat := 500

  const SEVERITIES: seq<string> := ["critical", "high", "medium", "info"]

  datatype Event = Event(
    uid: int, timestamp: string, eventId: int, labelText: string, severity: string, source: string,
    actor: string, target: string, honeyObject: string, objectType: string, description: string,
    acknowledged: bool, ingested: bool, agentId: string)

  /** A registered honey object; of its attributes only the service principal names matter here. */
  datatype Honey = Honey(name: string, objectType: string, spns: seq<string>)

  /** What one disk write holds. */
  datatype Snapshot = Snapshot(counter: int, honey: seq<Honey>, events: seq<Event>)

  function LastN<T>(s: seq<T>, n: nat): (r: seq<T>)
    ensures |r| == if |s| <= n then |s| else n
  {
    if |s| <= n then s else s[|s| - n..]
  }

  function EventLabel(eventId: int): string {
    if eventId == 4768 then "Kerberos TGT requested"
    else if eventId == 4769 then "Kerberos service ticket requested"
    else if eventId == 4625 then "Failed logon"
    else if eventId == 4624 then "Successful logon"
    else "Event " + IntToString(eventId)
  }

  // ---------------------------------------------------------------- correlation

  /** The four strings `_correlate` returns; all blank when nothing matched. */
  datatype Verdict = Verdict(name: string, objectType: string, severity: string, suffix: string)

  const NO_MATCH := Verdict("", "", "", "")

  predicate Matches(t: CharTable, h: Honey, actor: string, target: string) {
    && h.name != ""
    && (|| Contains(Lower(t, target), Lower(t, h.name))
        || Lower(t, h.name) == Lower(t, actor)
        || exists s | s in h.spns :: s != "" && Contains(Lower(t, target), Lower(t, s)))
  }

  function VerdictFor(h: Honey, eventId: int): Verdict {
    if h.objectType == "HoneyUser" then
      Verdict(h.name, h.objectType, "critical", " correlated with honey account '" + h.name + "'.")
    else if h.objectType == "HoneyServer" then
      Verdict(h.name, h.objectType, "critical", " correlated with bait server/SPN '" + h.name + "'.")
    else if h.objectType == "HoneyDC" then
      Verdict(h.name, h.objectType, "critical", " correlated with shadow DC '" + h.name + "'.")
    else
      Verdict(h.name, h.objectType, if eventId == 4625 then "high" else "critical",
              " correlated with decoy artifact '" + h.name + "'.")
  }

  /** The verdict of the first registered object that matches. */
  function Correlate(t: CharTable, honey: seq<Honey>, actor: string, target: string, eventId: int): Verdict {
    if honey == [] then NO_MATCH
    else if Matches(t, honey[0], actor, target) then VerdictFor(honey[0], eventId)
    else Correlate(t, honey[1..], actor, target, eventId)
  }

  /** A match is reported exactly when some registered object matches; it names such an
      object, and its severity is critical, or high for a failed logon on an artifact. */
  lemma {:induction false} CorrelateFindsMatch(t: CharTable, honey: seq<Honey>, actor: string, target: string, eventId: int)
    ensures var v := Correlate(t, honey, actor, target, eventId);
      && (v.name != "" <==> exists h :: h in honey && Matches(t, h, actor, target))
      && (v.name != "" ==>
            && v.suffix != ""
            && v.severity in ["critical", "high"]
            && (v.severity == "high" ==> eventId == 4625 && v.objectType !in ["HoneyUser", "HoneyServer", "HoneyDC"])
            && exists h :: h in honey && Matches(t, h, actor, target) && h.name == v.name && h.objectType == v.objectType)
  {
    if honey != [] {
      if Matches(t, honey[0], actor, target) {
        assert honey[0] in honey;
      } else {
        CorrelateFindsMatch(t, honey[1..], actor, target, eventId);
        assert forall h :: h in honey <==> h == honey[0] || h in honey[1..];
      }
    }
  }

  /** Scanning up to `k` without a match leaves the verdict of the rest. */
  lemma {:induction false} CorrelateSkip(t: CharTable, honey: seq<Honey>, k: nat, actor: string, target: string, eventId: int)
    requires k <= |honey|
    requires forall i :: 0 <= i < k ==> !Matches(t, honey[i], actor, target)
    ensures Correlate(t, honey, actor, target, eventId) == Correlate(t, honey[k..], actor, target, eventId)
  {
    if k == 0 {
      assert honey[0..] == honey;
    } else {
      CorrelateSkip(t, honey[1..], k - 1, actor, target, eventId);
      assert honey[1..][k - 1..] == honey[k..];
    }
  }

  // ---------------------------------------------------------------- recording

  /** What the clock reads for each event of one call. */
  type Clock = nat -> string

  datatype RecordArgs = RecordArgs(
    eventId: int, severity: string, source: string, actor: string, target: string, description: string,
    timestamp: string, ingested: bool, agentId: string, autoCorrelate: bool)

  /** What `record_event` settles before it takes the lock to append. */
  datatype Decision = Decision(severity: string, honeyObject: string, objectType: string, description: string)

  function Decide(t: CharTable, honey: seq<Honey>, a: RecordArgs): Decision {
    var given := if a.severity in SEVERITIES then a.severity else "info";
    if !a.autoCorrelate then Decision(given, "", "", a.description)
    else
      var v := Correlate(t, honey, a.actor, a.target, a.eventId);
      if v.name == "" then Decision(given, v.name, v.objectType, a.description)
      else
        Decision(
          if v.severity != "" then v.severity else given, v.name, v.objectType,
          if v.suffix != "" && !Contains(a.description, v.suffix)
          then (if a.description != "" then a.description else EventLabel(a.eventId)) + v.suffix
          else a.description)
  }

  function BuildEvent(a: RecordArgs, d: Decision, uid: int, now: string): Event {
    Event(uid, if a.timestamp != "" then a.timestamp else now, a.eventId, EventLabel(a.eventId), d.severity,
          a.source, a.actor, a.target, d.honeyObject, d.objectType, d.description, false, a.ingested, a.agentId)
  }

  function Append(events: seq<Event>, e: Event): seq<Event> {
    LastN(events + [e], MAX_EVENTS)
  }

  // ---------------------------------------------------------------- ingest items

  /** One entry of a bulk payload. `eventId` is `None` when `int(...)` refuses it. */
  datatype Item =
    | NotAnObject
    | Item(eventId: Option<int>, actor: string, target: string, severity: string, source: string,
           description: string, timestamp: string, agentId: string)

  predicate Acceptable(t: CharTable, item: Item) {
    item.Item? && item.eventId.Some? && Strip(t, item.actor) != "" && Strip(t, item.target) != ""
  }

  function ArgsOf(t: CharTable, item: Item, agentId: string): RecordArgs
    requires Acceptable(t, item)
  {
    RecordArgs(
      item.eventId.value,
      Lower(t, if item.severity != "" then item.severity else "info"),
      if item.source != "" then item.source else if agentId != "" then agentId else "agent",
      Strip(t, item.actor), Strip(t, item.target), item.description, item.timestamp, true,
      if agentId != "" then agentId else item.agentId, true)
  }

  // ---------------------------------------------------------------- simulated attacks

  /** The random choices behind one simulated event. */
  datatype Pick = Pick(honey: nat, alternative: bool, spn: nat)

  function SimulatedEvent(honey: seq<Honey>, p: Pick, host: string, uid: int, now: string): Event
    requires honey != []
  {
    var h := honey[p.honey % |honey|];
    var quoted := "'" + h.name + "'";
    if h.objectType == "HoneyUser" then
      var id := if p.alternative then 4768 else 4625;
      Event(uid, now, id, EventLabel(id), "critical",
            if id == 4768 then "Domain Controller" else "Security Log", host, h.name, h.name, h.objectType,
            if id == 4768 then "TGT requested for honey account " + quoted + " — no legitimate workflow uses this identity."
            else "Failed logon attempt against honey account " + quoted + ".",
            false, false, "")
    else if h.objectType == "HoneyServer" then
      var spns := if h.spns != [] then h.spns else ["HTTP/" + h.name + ".lab.local"];
      Event(uid, now, 4769, EventLabel(4769), "critical", "Domain Controller", host, spns[p.spn % |spns|],
            h.name, h.objectType,
            "Service ticket requested for bait SPN on " + quoted + " — consistent with Kerberoasting.",
            false, false, "")
    else if h.objectType == "HoneyDC" then
      Event(uid, now, 4769, EventLabel(4769), "critical", "Domain Controller", host, "LDAP/" + h.name + ".lab.local",
            h.name, h.objectType, "Directory service ticket requested against shadow DC " + quoted + ".",
            false, false, "")
    else
      var id := if p.alternative then 4624 else 4625;
      Event(uid, now, id, EventLabel(id), if id == 4624 then "critical" else "high", "Security Log", host, h.name,
            h.name, h.objectType,
            "Decoy breadcrumb credential " + quoted + " was " + (if id == 4624 then "used" else "attempted")
            + " from " + host + ".",
            false, false, "")
  }

  function SimulationOf(honey: seq<Honey>, picks: nat -> Pick, host: string, now: Clock): (nat, int) -> Event
    requires honey != []
  {
    (i: nat, uid: int) => SimulatedEvent(honey, picks(i), host, uid, now(i))
  }

  function SimulationCount(requested: int): nat {
    if requested < 1 then 1 else if requested > 10 then 10 else requested
  }

  // ---------------------------------------------------------------- state and calls

  /** The engine's fields, plus the file behind them (`None`: never written) and the two
      constructor choices. `persistent` is whether a store path was given. */
  datatype State = State(
    events: seq<Event>, counter: int, honey: seq<Honey>, disk: Option<Snapshot>,
    persistent: bool, seeded: bool)

  function Persist(s: State): State {
    if s.persistent then s.(disk := Some(Snapshot(s.counter, s.honey, LastN(s.events, MAX_EVENTS)))) else s
  }

  function Push(s: State, e: Event): State {
    s.(events := Append(s.events, e), counter := s.counter + 1)
  }

  function Record(t: CharTable, s: State, a: RecordArgs, now: string): State {
    Persist(Push(s, BuildEvent(a, Decide(t, s.honey, a), s.counter + 1, now)))
  }

  function IngestItem(t: CharTable, s: State, item: Item, agentId: string, now: string): State {
    if Acceptable(t, item) then Record(t, s, ArgsOf(t, item, agentId), now) else s
  }

  function Ingest(t: CharTable, s: State, items: seq<Item>, agentId: string, now: Clock): State {
    if items == [] then s
    else
      var n := |items| - 1;
      IngestItem(t, Ingest(t, s, items[..n], agentId, now), items[n], agentId, now(n))
  }

  function Accepted(t: CharTable, items: seq<Item>): nat {
    if items == [] then 0
    else Accepted(t, items[..|items| - 1]) + (if Acceptable(t, items[|items| - 1]) then 1 else 0)
  }

  /** The positions of the refused items, in order. */
  function Refused(t: CharTable, items: seq<Item>): seq<nat> {
    if items == [] then []
    else
      var n := |items| - 1;
      Refused(t, items[..n]) + (if Acceptable(t, items[n]) then [] else [n])
  }

  /** Accepted plus refused is the batch, and a position is refused exactly when its item is
      not acceptable. */
  lemma {:induction false} AcceptedPlusRefused(t: CharTable, items: seq<Item>, k: nat)
    ensures Accepted(t, items) + |Refused(t, items)| == |items|
    ensures k in Refused(t, items) <==> k < |items| && !Acceptable(t, items[k])
  {
    if items != [] {
      var n := |items| - 1;
      AcceptedPlusRefused(t, items[..n], k);
      assert k < n ==> items[..n][k] == items[k];
      assert k in Refused(t, items) <==> k in Refused(t, items[..n]) || (k == n && !Acceptable(t, items[n]));
    }
  }

  /** Appends `n` events made from their index and their uid. */
  function PushMany(s: State, n: nat, make: (nat, int) -> Event): State {
    if n == 0 then s
    else
      var s' := PushMany(s, n - 1, make);
      Push(s', make(n - 1, s'.counter + 1))
  }

  /** With nothing registered the call raises and changes nothing. */
  function Simulate(s: State, count: int, picks: nat -> Pick, host: string, now: Clock): State {
    if s.honey == [] then s
    else Persist(PushMany(s, SimulationCount(count), SimulationOf(s.honey, picks, host, now)))
  }

  /** The objects that have a name, in order. */
  function Named(objects: seq<Honey>): seq<Honey> {
    if objects == [] then []
    else (if objects[0].name != "" then [objects[0]] else []) + Named(objects[1..])
  }

  lemma {:induction false} NamedMembers(objects: seq<Honey>, h: Honey)
    ensures h in Named(objects) <==> h in objects && h.name != ""
  {
    if objects != [] {
      NamedMembers(objects[1..], h);
      assert h in objects <==> h == objects[0] || h in objects[1..];
    }
  }

  function Register(s: State, objects: seq<Honey>): State {
    Persist(s.(honey := Named(objects)))
  }

  predicate HasUid(events: seq<Event>, uid: int) {
    exists e | e in events :: e.uid == uid
  }

  /** Marks the first event with this uid. */
  function MarkUid(events: seq<Event>, uid: int): (r: seq<Event>)
    ensures |r| == |events|
  {
    if events == [] then []
    else if events[0].uid == uid then [events[0].(acknowledged := true)] + events[1..]
    else [events[0]] + MarkUid(events[1..], uid)
  }

  function Acknowledge(s: State, uid: int): State {
    if HasUid(s.events, uid) then Persist(s.(events := MarkUid(s.events, uid))) else s
  }

  predicate Pending(e: Event) { e.honeyObject != "" && !e.acknowledged }

  function MarkPending(e: Event): Event {
    if Pending(e) then e.(acknowledged := true) else e
  }

  function MarkAll(events: seq<Event>): (r: seq<Event>)
    ensures |r| == |events|
    ensures forall i :: 0 <= i < |r| ==> r[i] == MarkPending(events[i])
  {
    seq(|events|, i requires 0 <= i < |events| => MarkPending(events[i]))
  }

  function CountIf(events: seq<Event>, p: Event -> bool): (n: nat)
    ensures n <= |events|
  {
    if events == [] then 0
    else CountIf(events[..|events| - 1], p) + (if p(events[|events| - 1]) then 1 else 0)
  }

  function PendingCount(events: seq<Event>): nat {
    CountIf(events, e => Pending(e))
  }

  function HoneyCount(events: seq<Event>): nat {
    CountIf(events, (e: Event) => e.honeyObject != "")
  }

  function SeverityCount(events: seq<Event>, severity: string): nat {
    CountIf(events, (e: Event) => e.severity == severity)
  }

  function AcknowledgeAll(s: State): State {
    if PendingCount(s.events) > 0 then Persist(s.(events := MarkAll(s.events))) else s
  }

  // ---------------------------------------------------------------- start-up

  /** The template rows a fresh engine starts with: id, severity, source, actor, target, description. */
  const BASELINE: seq<(int, string, string, string, string, string)> := [
    (4624, "info", "Workstation", "j.doe", "WKS-014", "Routine interactive logon."),
    (4624, "info", "Workstation", "svc-backup", "FILE03", "Scheduled service logon."),
    (4768, "info", "Domain Controller", "m.chen", "krbtgt", "Standard TGT issuance."),
    (4769, "info", "Domain Controller", "h.patel", "CIFS/FILE03.lab.local", "Service ticket for file share."),
    (4625, "medium", "Security Log", "a.silva", "WKS-022", "Single failed logon, likely mistyped password."),
    (4625, "medium", "Security Log", "unknown", "VPN-GW01", "Failed logon from remote gateway.")
  ]

  function BaselineEvent(i: nat, uid: int, timestamp: string): Event {
    var row := BASELINE[i % |BASELINE|];
    Event(uid, timestamp, row.0, EventLabel(row.0), row.1, row.2, row.3, row.4, "", "", row.5, false, false, "")
  }

  function BaselineOf(times: nat -> string): (nat, int) -> Event {
    (i: nat, uid: int) => BaselineEvent(i, uid, times(i))
  }

  function Seed(s: State, times: nat -> string): State {
    Persist(PushMany(s, |BASELINE|, BaselineOf(times)))
  }

  /** The defaults `_event_from_dict` fills in. */
  function Revived(e: Event): Event {
    e.(severity := if e.severity != "" then e.severity else "info")
  }

  function ReviveAll(events: seq<Event>): seq<Event> {
    if events == [] then []
    else
      ReviveAll(events[..|events| - 1])
      + (if Revived(events[|events| - 1]).uid > 0 then [Revived(events[|events| - 1])] else [])
  }

  /** Python's `max((e.uid for e in events), default=0)`. */
  function MaxUid(events: seq<Event>): int {
    if events == [] then 0
    else
      var rest := events[..|events| - 1];
      var last := events[|events| - 1];
      if rest != [] && MaxUid(rest) >= last.uid then MaxUid(rest) else last.uid
  }

  lemma {:induction false} MaxUidBounds(events: seq<Event>)
    ensures forall e :: e in events ==> e.uid <= MaxUid(events)
    ensures events != [] ==> exists e :: e in events && e.uid == MaxUid(events)
  {
    if events != [] {
      var rest, last := events[..|events| - 1], events[|events| - 1];
      MaxUidBounds(rest);
      assert forall e :: e in events <==> e in rest || e == last;
    }
  }

  function Max(a: int, b: int): int { if a >= b then a else b }

  /** What a new engine makes of the file; `None` when it holds nothing to restore. */
  function Restored(file: Option<Snapshot>): Option<State> {
    if file.None? then None
    else
      var revived := ReviveAll(file.value.events);
      if revived == [] && file.value.honey == [] then None
      else
        var kept := LastN(revived, MAX_EVENTS);
        Some(State(kept, Max(file.value.counter, MaxUid(kept)), file.value.honey, file, true, true))
  }

  function Blank(file: Option<Snapshot>, persistent: bool, seeded: bool): State {
    State([], 0, [], file, persistent, seeded)
  }

  /** A newly built engine, for any file content. */
  function Start(file: Option<Snapshot>, persistent: bool, seeded: bool, times: nat -> string): State {
    var restored := if persistent then Restored(file) else None;
    if restored.Some? then restored.value.(seeded := seeded)
    else if seeded then Seed(Blank(file, persistent, seeded), times)
    else Blank(file, persistent, seeded)
  }
}
