/** What correlation, recording and simulation say of an event, in the words of the event, the
    payload and the registry. */
module Detection {
  import opened Text
  import opened Monitoring
  import MonitoringRuns

  // ---------------------------------------------------------------- correlation

  /** The event touches the object: its name stands in the target or is the actor, or one of its
      service principal names stands in the target. */
  predicate Touches(t: CharTable, h: Honey, actor: string, target: string) {
    && h.name != ""
    && (|| FoldedIn(t, h.name, target)
        || FoldedSame(t, h.name, actor)
        || exists s | s in h.spns :: s != "" && FoldedIn(t, s, target))
  }

  lemma MatchesTouches(t: CharTable, h: Honey, actor: string, target: string)
    ensures Matches(t, h, actor, target) <==> Touches(t, h, actor, target)
  {
    LowersContain(t, target, h.name);
    LowersSame(t, h.name, actor);
    forall s | s in h.spns ensures Contains(Lower(t, target), Lower(t, s)) <==> FoldedIn(t, s, target) {
      LowersContain(t, target, s);
    }
  }

  /** The object the event is correlated with: the first one it touches. */
  ghost predicate FirstTouched(t: CharTable, honey: seq<Honey>, actor: string, target: string, k: nat) {
    && k < |honey| && Touches(t, honey[k], actor, target)
    && forall j :: 0 <= j < k ==> !Touches(t, honey[j], actor, target)
  }

  /** The object types that stand for an account or machine of their own; the others are artifacts. */
  const KINDS: set<string> := {"HoneyUser", "HoneyServer", "HoneyDC"}

  function Phrase(objectType: string): string {
    match objectType
    case "HoneyUser" => " correlated with honey account '"
    case "HoneyServer" => " correlated with bait server/SPN '"
    case "HoneyDC" => " correlated with shadow DC '"
    case _ => " correlated with decoy artifact '"
  }

  /** What a verdict on object `h` says. */
  predicate Names(v: Verdict, h: Honey, eventId: int) {
    && v.name == h.name && v.objectType == h.objectType
    && v.severity == (if h.objectType !in KINDS && eventId == 4625 then "high" else "critical")
    && v.suffix == Phrase(h.objectType) + h.name + "'."
  }

  lemma VerdictNames(h: Honey, eventId: int)
    ensures Names(VerdictFor(h, eventId), h, eventId)
  {
  }

  /** An event is correlated exactly when it touches a registered object, and then with the first
      one it touches. */
  lemma {:induction false} CorrelateTouchesIff(t: CharTable, honey: seq<Honey>, actor: string, target: string, eventId: int)
    ensures var v := Correlate(t, honey, actor, target, eventId);
      && (v.name != "" <==> exists h :: h in honey && Touches(t, h, actor, target))
      && (v.name == "" ==> v == NO_MATCH)
      && (forall k: nat :: FirstTouched(t, honey, actor, target, k) ==> Names(v, honey[k], eventId))
      && (v.name != "" ==> exists k: nat :: FirstTouched(t, honey, actor, target, k))
  {
    if honey != [] {
      MatchesTouches(t, honey[0], actor, target);
      var rest := honey[1..];
      if Touches(t, honey[0], actor, target) {
        VerdictNames(honey[0], eventId);
        assert honey[0] in honey && FirstTouched(t, honey, actor, target, 0);
      } else {
        CorrelateTouchesIff(t, rest, actor, target, eventId);
        assert forall h :: h in honey <==> h == honey[0] || h in rest;
        FirstTouchedBehind(t, honey, actor, target);
      }
    }
  }

  lemma FirstTouchedBehind(t: CharTable, honey: seq<Honey>, actor: string, target: string)
    requires honey != [] && !Touches(t, honey[0], actor, target)
    ensures forall k: nat :: FirstTouched(t, honey, actor, target, k)
              ==> k > 0 && honey[1..][k - 1] == honey[k] && FirstTouched(t, honey[1..], actor, target, k - 1)
    ensures forall k: nat :: FirstTouched(t, honey[1..], actor, target, k) ==> FirstTouched(t, honey, actor, target, k + 1)
  {
    var rest := honey[1..];
    forall k: nat | FirstTouched(t, honey, actor, target, k)
      ensures k > 0 && rest[k - 1] == honey[k] && FirstTouched(t, rest, actor, target, k - 1)
    {
      forall j | 0 <= j < k - 1 ensures !Touches(t, rest[j], actor, target) {
        assert rest[j] == honey[j + 1];
      }
    }
    forall k: nat | FirstTouched(t, rest, actor, target, k) ensures FirstTouched(t, honey, actor, target, k + 1) {
      forall j | 0 <= j < k + 1 ensures !Touches(t, honey[j], actor, target) {
        if j > 0 { assert rest[j - 1] == honey[j]; }
      }
    }
  }

  // ---------------------------------------------------------------- recording

  predicate Labelled(e: Event) {
    match e.eventId
    case 4768 => e.labelText == "Kerberos TGT requested"
    case 4769 => e.labelText == "Kerberos service ticket requested"
    case 4625 => e.labelText == "Failed logon"
    case 4624 => e.labelText == "Successful logon"
    case _ => e.labelText == "Event " + IntToString(e.eventId)
  }

  /** The verdict an event carries: that of the first object touched, told at the end of the
      description once; or none, with the severity given if it is a known one. */
  ghost predicate Judged(t: CharTable, honey: seq<Honey>, correlate: bool, severity: string, description: string, e: Event) {
    if correlate && exists h :: h in honey && Touches(t, h, e.actor, e.target) then
      exists k: nat :: FirstTouched(t, honey, e.actor, e.target, k) && Blames(honey[k], description, e)
    else
      && e.honeyObject == "" && e.objectType == "" && e.description == description
      && e.severity == if severity in {"critical", "high", "medium", "info"} then severity else "info"
  }

  predicate Blames(h: Honey, description: string, e: Event) {
    var suffix := Phrase(h.objectType) + h.name + "'.";
    && e.honeyObject == h.name && e.objectType == h.objectType
    && e.severity == (if h.objectType !in KINDS && e.eventId == 4625 then "high" else "critical")
    && e.description == if Contains(description, suffix) then description else Or(description, e.labelText) + suffix
  }

  lemma KnownSeverity(severity: string)
    ensures severity in SEVERITIES <==> severity in {"critical", "high", "medium", "info"}
  {
    assert SEVERITIES[0] == "critical" && SEVERITIES[1] == "high" && SEVERITIES[2] == "medium" && SEVERITIES[3] == "info";
  }

  lemma BuiltIsJudged(t: CharTable, honey: seq<Honey>, a: RecordArgs, uid: int, now: string)
    ensures var e := BuildEvent(a, Decide(t, honey, a), uid, now);
      Judged(t, honey, a.autoCorrelate, a.severity, a.description, e) && Labelled(e)
  {
    var e := BuildEvent(a, Decide(t, honey, a), uid, now);
    var v := Correlate(t, honey, a.actor, a.target, a.eventId);
    CorrelateTouchesIff(t, honey, a.actor, a.target, a.eventId);
    KnownSeverity(a.severity);
    if a.autoCorrelate && v.name != "" {
      var k: nat :| FirstTouched(t, honey, a.actor, a.target, k);
      assert Names(v, honey[k], a.eventId);
      assert Blames(honey[k], a.description, e);
    }
  }

  /** A recorded event says what it was given, under the next uid, with its label and its verdict. */
  lemma RecordSays(t: CharTable, s: State, a: RecordArgs, now: string)
    ensures var r := Record(t, s, a, now);
      && r.counter == s.counter + 1 && r.events != []
      && var e := r.events[|r.events| - 1];
         && e.uid == s.counter + 1 && e.eventId == a.eventId && Labelled(e)
         && e.actor == a.actor && e.target == a.target && e.source == a.source
         && e.timestamp == (if a.timestamp == "" then now else a.timestamp)
         && !e.acknowledged && e.ingested == a.ingested && e.agentId == a.agentId
         && Judged(t, s.honey, a.autoCorrelate, a.severity, a.description, e)
  {
    BuiltIsJudged(t, s.honey, a, s.counter + 1, now);
    var e := BuildEvent(a, Decide(t, s.honey, a), s.counter + 1, now);
    var both := s.events + [e];
    assert both[|both| - 1] == e;
  }

  // ---------------------------------------------------------------- ingesting

  /** An item with a number for its id, and an actor and a target that are not blank, makes one event
      that says what it says; any other makes none and changes nothing. */
  lemma IngestSays(t: CharTable, s: State, item: Item, agentId: string, now: string)
    ensures var r := IngestItem(t, s, item, agentId, now);
      if item.Item? && item.eventId.Some? && !AllSpace(t, item.actor) && !AllSpace(t, item.target) then
        && r.counter == s.counter + 1 && r.events != []
        && var e := r.events[|r.events| - 1];
           && e.uid == s.counter + 1 && e.eventId == item.eventId.value && Labelled(e)
           && e.actor == Strip(t, item.actor) && e.target == Strip(t, item.target)
           && e.source == (if item.source != "" then item.source else if agentId != "" then agentId else "agent")
           && e.timestamp == (if item.timestamp == "" then now else item.timestamp)
           && !e.acknowledged && e.ingested && e.agentId == (if agentId != "" then agentId else item.agentId)
           && Judged(t, s.honey, true, Lower(t, if item.severity == "" then "info" else item.severity), item.description, e)
      else r == s
  {
    if item.Item? {
      StripIsBlankIff(t, item.actor);
      StripIsBlankIff(t, item.target);
      if Acceptable(t, item) { RecordSays(t, s, ArgsOf(t, item, agentId), now); }
    }
  }

  // ---------------------------------------------------------------- simulated attacks

  /** A simulated event on object `h` from `host`: an id the monitor watches with the source that
      reports it, and a target that carries the object's name or is one of its service principals. */
  predicate Simulates(h: Honey, host: string, e: Event) {
    && e.honeyObject == h.name && e.objectType == h.objectType && e.actor == host && Labelled(e)
    && e.eventId in (match h.objectType
                     case "HoneyUser" => {4768, 4625}
                     case "HoneyServer" => {4769}
                     case "HoneyDC" => {4769}
                     case _ => {4624, 4625})
    && e.source == (if e.eventId in {4768, 4769} then "Domain Controller" else "Security Log")
    && e.severity == (if h.objectType !in KINDS && e.eventId == 4625 then "high" else "critical")
    && (if h.objectType == "HoneyServer" && h.spns != [] then e.target in h.spns else Contains(e.target, h.name))
    && Contains(e.description, "'" + h.name + "'")
    && !e.acknowledged && !e.ingested && e.agentId == ""
  }

  lemma InTheMiddle(a: string, part: string, b: string)
    ensures Contains(a + part + b, part)
  {
    var s := a + part + b;
    assert part <= s[|a|..];
  }

  lemma WholeIsIn(s: string)
    ensures Contains(s, s)
  {
    assert s <= s[0..];
  }

  lemma SimulatedUser(h: Honey, p: Pick, host: string, uid: int, now: string)
    requires h.objectType == "HoneyUser"
    ensures Simulates(h, host, SimulatedEvent([h], p, host, uid, now))
  {
    WholeIsIn(h.name);
    var quoted := "'" + h.name + "'";
    InTheMiddle("TGT requested for honey account ", quoted, " — no legitimate workflow uses this identity.");
    InTheMiddle("Failed logon attempt against honey account ", quoted, ".");
  }

  lemma AttemptNames(name: string, used: bool, host: string)
    ensures Contains(
      "Decoy breadcrumb credential " + ("'" + name + "'") + " was " + (if used then "used" else "attempted")
      + " from " + host + ".", "'" + name + "'")
  {
    var s := "Decoy breadcrumb credential " + ("'" + name + "'") + " was " + (if used then "used" else "attempted")
             + " from " + host + ".";
    assert "'" + name + "'" <= s[|"Decoy breadcrumb credential "|..];
  }

  lemma SimulatedArtifact(h: Honey, p: Pick, host: string, uid: int, now: string)
    requires h.objectType !in KINDS
    ensures Simulates(h, host, SimulatedEvent([h], p, host, uid, now))
  {
    WholeIsIn(h.name);
    AttemptNames(h.name, p.alternative, host);
  }

  lemma SimulatedMachine(h: Honey, p: Pick, host: string, uid: int, now: string)
    requires h.objectType in {"HoneyServer", "HoneyDC"}
    ensures Simulates(h, host, SimulatedEvent([h], p, host, uid, now))
  {
    var quoted := "'" + h.name + "'";
    if h.objectType == "HoneyDC" {
      InTheMiddle("LDAP/", h.name, ".lab.local");
      InTheMiddle("Directory service ticket requested against shadow DC ", quoted, ".");
    } else {
      InTheMiddle("HTTP/", h.name, ".lab.local");
      InTheMiddle("Service ticket requested for bait SPN on ", quoted, " — consistent with Kerberoasting.");
    }
  }

  /** Each simulated event is on some registered object, at its own time and uid. */
  lemma SimulationSays(honey: seq<Honey>, picks: nat -> Pick, host: string, now: Clock, i: nat, uid: int)
    requires honey != []
    ensures var e := SimulationOf(honey, picks, host, now)(i, uid);
      && e.uid == uid && e.timestamp == now(i)
      && exists h :: h in honey && Simulates(h, host, e)
  {
    var h := honey[picks(i).honey % |honey|];
    assert SimulatedEvent(honey, picks(i), host, uid, now(i)) == SimulatedEvent([h], picks(i), host, uid, now(i));
    if h.objectType == "HoneyUser" {
      SimulatedUser(h, picks(i), host, uid, now(i));
    } else if h.objectType in KINDS {
      SimulatedMachine(h, picks(i), host, uid, now(i));
    } else {
      SimulatedArtifact(h, picks(i), host, uid, now(i));
    }
  }

  /** A simulated event would be correlated with the object it is on, at the same severity, but for one
      whose service principal name is blank - unless the host has the object's name. */
  lemma SimulatedIsCorrelatedIff(t: CharTable, h: Honey, host: string, e: Event)
    requires Simulates(h, host, e) && h.name != ""
    ensures var v := Correlate(t, [h], host, e.target, e.eventId);
      && (v.name == h.name <==> e.target != "" || FoldedSame(t, h.name, host))
      && (v.name != "" ==> v.name == e.honeyObject && v.objectType == e.objectType && v.severity == e.severity)
  {
    CorrelateTouchesIff(t, [h], host, e.target, e.eventId);
    if e.target == "" {
      assert !FoldedIn(t, h.name, "");
      assert forall s | s != "" :: !FoldedIn(t, s, "");
    } else if h.objectType == "HoneyServer" && h.spns != [] {
      WholeIsIn(e.target);
      ContainsAfterLower(t, e.target, e.target);
      LowersContain(t, e.target, e.target);
    } else {
      ContainsAfterLower(t, e.target, h.name);
      LowersContain(t, e.target, h.name);
    }
    assert Touches(t, h, host, e.target) <==> e.target != "" || FoldedSame(t, h.name, host);
    assert Touches(t, h, host, e.target) ==> FirstTouched(t, [h], host, e.target, 0);
  }

  lemma PushCounts(s: State, e: Event)
    requires |s.events| < MAX_EVENTS && e.honeyObject != "" && !e.acknowledged
    ensures var r := Push(s, e);
      && r.events == s.events + [e] && r.honey == s.honey
      && HoneyCount(r.events) == HoneyCount(s.events) + 1 && PendingCount(r.events) == PendingCount(s.events) + 1
  {
    assert (s.events + [e])[..|s.events|] == s.events;
  }

  /** Every event `make` gives is one of a registered object's, at its own uid and time. */
  ghost predicate MakesSimulated(honey: seq<Honey>, host: string, now: Clock, make: (nat, int) -> Event) {
    forall i: nat, uid: int :: IsSimulated(honey, host, uid, now(i), make(i, uid))
  }

  ghost predicate IsSimulated(honey: seq<Honey>, host: string, uid: int, now: string, e: Event) {
    e.uid == uid && e.timestamp == now && exists h :: h in honey && Simulates(h, host, e)
  }

  /** The events from `from` on are simulated ones, with the uids after `counter`. */
  ghost predicate SimulatedFrom(honey: seq<Honey>, host: string, now: Clock, events: seq<Event>, from: nat, counter: int) {
    forall j: nat :: from <= j < |events| ==> IsSimulated(honey, host, counter + 1 + (j - from), now(j - from), events[j])
  }

  /** `r` is `s` with `n` more events, all pending. */
  predicate Risen(s: State, r: State, n: nat) {
    && |r.events| == |s.events| + n && r.counter == s.counter + n && r.honey == s.honey
    && HoneyCount(r.events) == HoneyCount(s.events) + n && PendingCount(r.events) == PendingCount(s.events) + n
  }

  lemma RisesOneMore(s: State, before: State, n: nat, e: Event)
    requires Risen(s, before, n) && |before.events| < MAX_EVENTS && e.honeyObject != "" && !e.acknowledged
    ensures Risen(s, Push(before, e), n + 1) && Push(before, e).events == before.events + [e]
  {
    PushCounts(before, e);
  }

  ghost predicate MakesPending(make: (nat, int) -> Event) {
    forall i: nat, uid: int :: Pending(make(i, uid))
  }

  lemma {:induction false} PushesRise(s: State, n: nat, make: (nat, int) -> Event)
    requires |s.events| + n <= MAX_EVENTS && MakesPending(make)
    ensures Risen(s, PushMany(s, n, make), n)
  {
    if n > 0 {
      PushesRise(s, n - 1, make);
      var before := PushMany(s, n - 1, make);
      RisesOneMore(s, before, n - 1, make(n - 1, before.counter + 1));
    }
  }

  ghost predicate MadeFrom(make: (nat, int) -> Event, events: seq<Event>, from: nat, counter: int) {
    forall j: nat :: from <= j < |events| ==> events[j] == make(j - from, counter + 1 + (j - from))
  }

  lemma MadeOneMore(make: (nat, int) -> Event, events: seq<Event>, from: nat, counter: int, i: nat, uid: int)
    requires from <= |events| && MadeFrom(make, events, from, counter)
    requires i == |events| - from && uid == counter + 1 + i
    ensures MadeFrom(make, events + [make(i, uid)], from, counter)
  {
  }

  lemma RoomToPush(s: State, e: Event)
    requires |s.events| < MAX_EVENTS
    ensures Push(s, e).events == s.events + [e]
  {
  }

  lemma {:induction false} PushesMake(s: State, n: nat, make: (nat, int) -> Event)
    requires |s.events| + n <= MAX_EVENTS
    ensures var r := PushMany(s, n, make);
      && |r.events| == |s.events| + n && r.counter == s.counter + n
      && MadeFrom(make, r.events, |s.events|, s.counter)
  {
    if n > 0 {
      PushesMake(s, n - 1, make);
      var before := PushMany(s, n - 1, make);
      RoomToPush(before, make(n - 1, before.counter + 1));
      MadeOneMore(make, before.events, |s.events|, s.counter, n - 1, before.counter + 1);
    }
  }

  /** Simulating appends as many events as asked for, between one and ten, each on a registered object;
      while the log has room, honey triggers and pending events rise by that number. */
  lemma SimulateSays(s: State, count: int, picks: nat -> Pick, host: string, now: Clock)
    requires s.honey != [] && |s.events| + 10 <= MAX_EVENTS && AllNamed(s.honey)
    ensures var r := Simulate(s, count, picks, host, now);
      var n := r.counter - s.counter;
      && 1 <= n <= 10 && (1 <= count <= 10 ==> n == count) && (count < 1 ==> n == 1) && (count > 10 ==> n == 10)
      && Risen(s, r, n) && SimulatedFrom(s.honey, host, now, r.events, |s.events|, s.counter)
  {
    var n, make := SimulationCount(count), SimulationOf(s.honey, picks, host, now);
    SimulationMakes(s.honey, picks, host, now);
    PushesRise(s, n, make);
    PushesMake(s, n, make);
    MadeAreSimulated(s.honey, host, now, make, PushMany(s, n, make).events, |s.events|, s.counter);
  }

  lemma SimulationMakes(honey: seq<Honey>, picks: nat -> Pick, host: string, now: Clock)
    requires honey != [] && AllNamed(honey)
    ensures var make := SimulationOf(honey, picks, host, now); MakesSimulated(honey, host, now, make) && MakesPending(make)
  {
    var make := SimulationOf(honey, picks, host, now);
    forall i: nat, uid: int ensures IsSimulated(honey, host, uid, now(i), make(i, uid)) && Pending(make(i, uid)) {
      SimulationSays(honey, picks, host, now, i, uid);
    }
  }

  lemma MadeAreSimulated(
      honey: seq<Honey>, host: string, now: Clock, make: (nat, int) -> Event, events: seq<Event>, from: nat, counter: int)
    requires MadeFrom(make, events, from, counter) && MakesSimulated(honey, host, now, make)
    ensures SimulatedFrom(honey, host, now, events, from, counter)
  {
    forall j: nat | from <= j < |events|
      ensures IsSimulated(honey, host, counter + 1 + (j - from), now(j - from), events[j])
    {
      assert events[j] == make(j - from, counter + 1 + (j - from));
    }
  }

  // ---------------------------------------------------------------- the registry

  ghost predicate AllNamed(honey: seq<Honey>) { forall h :: h in honey ==> h.name != "" }

  lemma {:induction false} FullRegistryIsNamed(t: CharTable, f: MonitoringRuns.Full, ops: seq<MonitoringRuns.Op>)
    requires AllNamed(f.honey)
    ensures AllNamed(MonitoringRuns.FullRun(t, f, ops).honey)
  {
    if ops != [] {
      var rest, op := ops[..|ops| - 1], ops[|ops| - 1];
      FullRegistryIsNamed(t, f, rest);
      if op.RegisterOp? {
        forall h | h in Named(op.objects) ensures h.name != "" {
          NamedMembers(op.objects, h);
        }
      }
    }
  }

  /** After any calls, restarts included, every registered object has a name. */
  lemma RegistryIsNamed(t: CharTable, persistent: bool, seeded: bool, times: nat -> string, ops: seq<MonitoringRuns.Op>)
    requires MonitoringRuns.Restarts(ops) ==> persistent
    ensures AllNamed(MonitoringRuns.Run(t, MonitoringRuns.First(persistent, seeded, times), ops).honey)
  {
    var s, f := MonitoringRuns.First(persistent, seeded, times), MonitoringRuns.FirstFull(seeded, times);
    MonitoringRuns.FirstGood(persistent, seeded, times);
    MonitoringRuns.RunGood(t, s, f, ops);
    FullRegistryIsNamed(t, f, ops);
  }
}
