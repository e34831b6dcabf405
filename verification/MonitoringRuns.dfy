/** Whole runs of the monitoring engine: the capped log against an unbounded one, restarts,
    and the counts shown to the triage page. */
module MonitoringRuns {
  import opened Text
  import opened Monitoring
  import opened Runs

  datatype Op =
    | RecordOp(args: RecordArgs, now: string)
    | IngestOp(items: seq<Item>, agentId: string, clock: Clock)
    | SimulateOp(count: int, picks: nat -> Pick, host: string, clock: Clock)
    | RegisterOp(objects: seq<Honey>)
    | AcknowledgeOp(uid: int)
    | AcknowledgeAllOp
    | RestartOp(times: nat -> string)

  function Step(t: CharTable, s: State, op: Op): State {
    match op
    case RecordOp(a, now) => Record(t, s, a, now)
    case IngestOp(items, agentId, now) => Ingest(t, s, items, agentId, now)
    case SimulateOp(count, picks, host, now) => Simulate(s, count, picks, host, now)
    case RegisterOp(objects) => Register(s, objects)
    case AcknowledgeOp(uid) => Acknowledge(s, uid)
    case AcknowledgeAllOp => AcknowledgeAll(s)
    case RestartOp(times) => Start(s.disk, s.persistent, s.seeded, times)
  }

  function Stepper(t: CharTable): (State, Op) -> State {
    (s: State, op: Op) => Step(t, s, op)
  }

  function Run(t: CharTable, s: State, ops: seq<Op>): State { Fold(Stepper(t), s, ops) }

  // ---------------------------------------------------------------- the unbounded reference

  /** A log that never forgets; the only trace of the cap is which entries may still be marked. */
  datatype Full = Full(log: seq<Event>, honey: seq<Honey>)

  function Oldest(n: nat): nat { if n <= MAX_EVENTS then 0 else n - MAX_EVENTS }

  predicate Retained(n: nat, uid: int) { Oldest(n) < uid <= n }

  function FullIngestItem(t: CharTable, f: Full, item: Item, agentId: string, now: string): (r: Full)
    ensures r.honey == f.honey
  {
    if Acceptable(t, item) then
      var a := ArgsOf(t, item, agentId);
      f.(log := f.log + [BuildEvent(a, Decide(t, f.honey, a), |f.log| + 1, now)])
    else f
  }

  function FullIngest(t: CharTable, f: Full, items: seq<Item>, agentId: string, now: Clock): (r: Full)
    ensures r.honey == f.honey
  {
    if items == [] then f
    else
      var n := |items| - 1;
      FullIngestItem(t, FullIngest(t, f, items[..n], agentId, now), items[n], agentId, now(n))
  }

  function FullMany(f: Full, n: nat, make: (nat, int) -> Event): (r: Full)
    ensures r.honey == f.honey && |r.log| == |f.log| + n
  {
    if n == 0 then f
    else
      var f' := FullMany(f, n - 1, make);
      f'.(log := f'.log + [make(n - 1, |f'.log| + 1)])
  }

  function FullAcknowledge(f: Full, uid: int): Full {
    if Retained(|f.log|, uid) then f.(log := f.log[uid - 1 := f.log[uid - 1].(acknowledged := true)]) else f
  }

  function FullAcknowledgeAll(f: Full): Full {
    var k := Oldest(|f.log|);
    f.(log := f.log[..k] + MarkAll(f.log[k..]))
  }

  function FullStep(t: CharTable, f: Full, op: Op): Full {
    match op
    case RecordOp(a, now) => f.(log := f.log + [BuildEvent(a, Decide(t, f.honey, a), |f.log| + 1, now)])
    case IngestOp(items, agentId, now) => FullIngest(t, f, items, agentId, now)
    case SimulateOp(count, picks, host, now) =>
      if f.honey == [] then f else FullMany(f, SimulationCount(count), SimulationOf(f.honey, picks, host, now))
    case RegisterOp(objects) => f.(honey := Named(objects))
    case AcknowledgeOp(uid) => FullAcknowledge(f, uid)
    case AcknowledgeAllOp => FullAcknowledgeAll(f)
    case RestartOp(_) => f
  }

  function FullStepper(t: CharTable): (Full, Op) -> Full {
    (f: Full, op: Op) => FullStep(t, f, op)
  }

  function FullRun(t: CharTable, f: Full, ops: seq<Op>): Full { Fold(FullStepper(t), f, ops) }

  // ---------------------------------------------------------------- the invariant

  /** Uids are the 1-based positions in the full log, and every severity is a known one. */
  predicate WellNumbered(log: seq<Event>) {
    forall i :: 0 <= i < |log| ==> log[i].uid == i + 1 && log[i].severity in SEVERITIES
  }

  /** The capped engine shows the last 500 entries of the full log. */
  predicate Linked(s: State, f: Full) {
    && s.counter == |f.log|
    && s.events == LastN(f.log, MAX_EVENTS)
    && s.honey == f.honey
    && WellNumbered(f.log)
  }

  /** The file is up to date, or was never written because there is nothing to write. */
  predicate DiskCurrent(s: State) {
    s.persistent ==>
      && (s.disk.None? ==> s.events == [] && s.honey == [] && s.counter == 0)
      && (s.disk.Some? ==> s.disk.value == Snapshot(s.counter, s.honey, s.events))
  }

  predicate Good(s: State, f: Full) {
    Linked(s, f) && DiskCurrent(s) && (s.seeded ==> s.counter > 0)
  }

  lemma PushLinked(s: State, f: Full, e: Event)
    requires Linked(s, f) && e.uid == s.counter + 1 && e.severity in SEVERITIES
    ensures Linked(Push(s, e), f.(log := f.log + [e]))
  {
    assert LastN(LastN(f.log, MAX_EVENTS) + [e], MAX_EVENTS) == LastN(f.log + [e], MAX_EVENTS);
  }

  lemma PersistCurrent(s: State, f: Full)
    requires Linked(s, f)
    ensures Linked(Persist(s), f) && DiskCurrent(Persist(s))
  {
  }

  lemma DecideSeverity(t: CharTable, honey: seq<Honey>, a: RecordArgs)
    ensures Decide(t, honey, a).severity in SEVERITIES
  {
    CorrelateFindsMatch(t, honey, a.actor, a.target, a.eventId);
    assert SEVERITIES[0] == "critical" && SEVERITIES[1] == "high" && SEVERITIES[3] == "info";
  }

  lemma RecordGood(t: CharTable, s: State, f: Full, a: RecordArgs, now: string)
    requires Good(s, f)
    ensures Good(Record(t, s, a, now), FullStep(t, f, RecordOp(a, now)))
  {
    DecideSeverity(t, s.honey, a);
    var e := BuildEvent(a, Decide(t, s.honey, a), s.counter + 1, now);
    PushLinked(s, f, e);
    PersistCurrent(Push(s, e), f.(log := f.log + [e]));
  }

  lemma {:induction false} IngestGood(t: CharTable, s: State, f: Full, items: seq<Item>, agentId: string, now: Clock)
    requires Good(s, f)
    ensures Good(Ingest(t, s, items, agentId, now), FullIngest(t, f, items, agentId, now))
  {
    if items != [] {
      var rest := items[..|items| - 1];
      IngestGood(t, s, f, rest, agentId, now);
      if Acceptable(t, items[|items| - 1]) {
        RecordGood(t, Ingest(t, s, rest, agentId, now), FullIngest(t, f, rest, agentId, now),
                   ArgsOf(t, items[|items| - 1], agentId), now(|items| - 1));
      }
    }
  }

  predicate MakesKnown(make: (nat, int) -> Event, i: nat, uid: int) {
    make(i, uid).uid == uid && make(i, uid).severity in SEVERITIES
  }

  lemma SimulationMakesKnown(honey: seq<Honey>, picks: nat -> Pick, host: string, now: Clock)
    requires honey != []
    ensures forall i: nat, uid: int :: MakesKnown(SimulationOf(honey, picks, host, now), i, uid)
  {
    assert SEVERITIES[0] == "critical" && SEVERITIES[1] == "high";
    forall i: nat, uid: int ensures MakesKnown(SimulationOf(honey, picks, host, now), i, uid) {
      assert SimulationOf(honey, picks, host, now)(i, uid) == SimulatedEvent(honey, picks(i), host, uid, now(i));
    }
  }

  lemma BaselineMakesKnown(times: nat -> string)
    ensures forall i: nat, uid: int :: MakesKnown(BaselineOf(times), i, uid)
  {
    assert SEVERITIES[2] == "medium" && SEVERITIES[3] == "info";
    forall i: nat, uid: int ensures MakesKnown(BaselineOf(times), i, uid) {
      assert BaselineOf(times)(i, uid) == BaselineEvent(i, uid, times(i));
      assert BASELINE[i % |BASELINE|].1 in SEVERITIES;
    }
  }

  lemma {:induction false} ManyLinked(s: State, f: Full, n: nat, make: (nat, int) -> Event)
    requires Linked(s, f)
    requires forall i: nat, uid: int :: MakesKnown(make, i, uid)
    ensures var r := PushMany(s, n, make);
      && Linked(r, FullMany(f, n, make))
      && r.counter == s.counter + n && r.seeded == s.seeded && r.persistent == s.persistent
  {
    if n > 0 {
      ManyLinked(s, f, n - 1, make);
      var s' := PushMany(s, n - 1, make);
      assert MakesKnown(make, n - 1, s'.counter + 1);
      PushLinked(s', FullMany(f, n - 1, make), make(n - 1, s'.counter + 1));
    }
  }

  lemma HasUidAt(events: seq<Event>, first: int, uid: int)
    requires forall i :: 0 <= i < |events| ==> events[i].uid == first + i
    ensures HasUid(events, uid) <==> first <= uid < first + |events|
  {
    if first <= uid < first + |events| {
      assert events[uid - first] in events;
    }
  }

  lemma {:induction false} MarkUidFound(events: seq<Event>, first: int, uid: int)
    requires forall i :: 0 <= i < |events| ==> events[i].uid == first + i
    requires first <= uid < first + |events|
    ensures MarkUid(events, uid) == events[uid - first := events[uid - first].(acknowledged := true)]
  {
    if events[0].uid != uid {
      MarkUidFound(events[1..], first + 1, uid);
    }
  }

  lemma MarkedTail(log: seq<Event>, k: nat, i: nat)
    requires k <= i < |log|
    ensures log[i := log[i].(acknowledged := true)][k..] == log[k..][i - k := log[i].(acknowledged := true)]
  {
  }

  lemma RetainedUid(s: State, f: Full, uid: int)
    requires Linked(s, f)
    ensures HasUid(s.events, uid) <==> Retained(|f.log|, uid)
  {
    HasUidAt(s.events, Oldest(|f.log|) + 1, uid);
  }

  lemma MarkedLinked(s: State, f: Full, uid: int)
    requires Linked(s, f) && Retained(|f.log|, uid)
    ensures Linked(s.(events := MarkUid(s.events, uid)), FullAcknowledge(f, uid))
  {
    var k := Oldest(|f.log|);
    assert s.events == f.log[k..];
    MarkUidFound(s.events, k + 1, uid);
    MarkedTail(f.log, k, uid - 1);
  }

  lemma AcknowledgeGood(s: State, f: Full, uid: int)
    requires Good(s, f)
    ensures HasUid(s.events, uid) <==> Retained(|f.log|, uid)
    ensures Good(Acknowledge(s, uid), FullAcknowledge(f, uid))
  {
    RetainedUid(s, f, uid);
    if Retained(|f.log|, uid) {
      MarkedLinked(s, f, uid);
      PersistCurrent(s.(events := MarkUid(s.events, uid)), FullAcknowledge(f, uid));
    }
  }

  lemma {:induction false} NothingPending(events: seq<Event>)
    ensures PendingCount(events) == 0 ==> MarkAll(events) == events
    ensures PendingCount(MarkAll(events)) == 0
  {
    if events != [] {
      var rest := events[..|events| - 1];
      NothingPending(rest);
      assert MarkAll(events)[..|events| - 1] == MarkAll(rest);
      assert events == rest + [events[|events| - 1]];
    }
  }

  lemma AcknowledgeAllGood(s: State, f: Full)
    requires Good(s, f)
    ensures Good(AcknowledgeAll(s), FullAcknowledgeAll(f))
  {
    var k := Oldest(|f.log|);
    assert s.events == f.log[k..];
    NothingPending(s.events);
    var log' := f.log[..k] + MarkAll(f.log[k..]);
    assert log'[k..] == MarkAll(s.events);
    assert WellNumbered(log');
    if PendingCount(s.events) > 0 {
      PersistCurrent(s.(events := MarkAll(s.events)), f.(log := log'));
    } else {
      assert log' == f.log;
    }
  }

  lemma {:induction false} ReviveAllKeeps(events: seq<Event>)
    requires forall e :: e in events ==> e.uid > 0 && e.severity != ""
    ensures ReviveAll(events) == events
  {
    if events != [] {
      var n := |events| - 1;
      assert events[n] in events && Revived(events[n]) == events[n];
      ReviveAllKeeps(events[..n]);
      assert events == events[..n] + [events[n]];
    }
  }

  lemma RetainedEvents(s: State, f: Full)
    requires Linked(s, f)
    ensures forall e :: e in s.events ==> 0 < e.uid <= s.counter && e.severity in SEVERITIES && e.severity != ""
    ensures s.events != [] ==> exists e :: e in s.events && e.uid == s.counter
    ensures s.events == [] <==> s.counter == 0
  {
    forall e | e in s.events ensures 0 < e.uid <= s.counter && e.severity in SEVERITIES && e.severity != "" {
      var i :| 0 <= i < |s.events| && s.events[i] == e;
      assert e == f.log[Oldest(|f.log|) + i];
    }
    if s.events != [] {
      assert s.events[|s.events| - 1] == f.log[|f.log| - 1];
    }
  }

  lemma RestoredSame(s: State, f: Full)
    requires Good(s, f) && s.persistent && s.disk.Some?
    ensures Restored(s.disk) == if s.events == [] && s.honey == [] then None else Some(s.(seeded := true))
  {
    RetainedEvents(s, f);
    ReviveAllKeeps(s.events);
    MaxUidBounds(s.events);
  }

  /** A new engine built on this engine's file is this engine. */
  lemma RestartSame(s: State, f: Full, times: nat -> string)
    requires Good(s, f) && s.persistent
    ensures Start(s.disk, s.persistent, s.seeded, times) == s
  {
    RetainedEvents(s, f);
    if s.disk.Some? {
      RestoredSame(s, f);
    }
  }

  lemma IngestKeepsChoices(t: CharTable, s: State, items: seq<Item>, agentId: string, now: Clock)
    ensures Ingest(t, s, items, agentId, now).persistent == s.persistent
  {
  }

  lemma StepGood(t: CharTable, s: State, f: Full, op: Op)
    requires Good(s, f)
    requires op.RestartOp? ==> s.persistent
    ensures Good(Step(t, s, op), FullStep(t, f, op))
    ensures Step(t, s, op).persistent == s.persistent
  {
    match op
    case RecordOp(a, now) => RecordGood(t, s, f, a, now);
    case IngestOp(items, agentId, now) =>
      IngestGood(t, s, f, items, agentId, now);
      IngestKeepsChoices(t, s, items, agentId, now);
    case SimulateOp(count, picks, host, now) =>
      if s.honey != [] {
        var n, make := SimulationCount(count), SimulationOf(s.honey, picks, host, now);
        SimulationMakesKnown(s.honey, picks, host, now);
        ManyLinked(s, f, n, make);
        PersistCurrent(PushMany(s, n, make), FullMany(f, n, make));
      }
    case RegisterOp(objects) => PersistCurrent(s.(honey := Named(objects)), f.(honey := Named(objects)));
    case AcknowledgeOp(uid) => AcknowledgeGood(s, f, uid);
    case AcknowledgeAllOp => AcknowledgeAllGood(s, f);
    case RestartOp(times) => RestartSame(s, f, times);
  }

  // ---------------------------------------------------------------- theorems over whole runs

  ghost predicate Restarts(ops: seq<Op>) { exists op | op in ops :: op.RestartOp? }

  lemma {:induction false} RunGood(t: CharTable, s: State, f: Full, ops: seq<Op>)
    requires Good(s, f)
    requires Restarts(ops) ==> s.persistent
    ensures Good(Run(t, s, ops), FullRun(t, f, ops))
    ensures Run(t, s, ops).persistent == s.persistent
  {
    if ops != [] {
      var rest, op := ops[..|ops| - 1], ops[|ops| - 1];
      assert op in ops && forall o :: o in rest ==> o in ops;
      RunGood(t, s, f, rest);
      StepGood(t, Run(t, s, rest), FullRun(t, f, rest), op);
    }
  }

  /** A first engine: no file yet. */
  function First(persistent: bool, seeded: bool, times: nat -> string): State {
    Start(None, persistent, seeded, times)
  }

  function FirstFull(seeded: bool, times: nat -> string): Full {
    if seeded then FullMany(Full([], []), |BASELINE|, BaselineOf(times)) else Full([], [])
  }

  lemma FirstGood(persistent: bool, seeded: bool, times: nat -> string)
    ensures Good(First(persistent, seeded, times), FirstFull(seeded, times))
    ensures First(persistent, seeded, times).persistent == persistent
  {
    if seeded {
      var blank := Blank(None, persistent, seeded);
      BaselineMakesKnown(times);
      ManyLinked(blank, Full([], []), |BASELINE|, BaselineOf(times));
      PersistCurrent(PushMany(blank, |BASELINE|, BaselineOf(times)), FirstFull(seeded, times));
    }
  }

  /** After any calls, the engine holds the last min(n, 500) entries of the full log, the
      counter is n, uids are positions, and a uid can be acknowledged exactly while its
      event is among those last entries. */
  lemma CappedLogRefinesFullLog(t: CharTable, persistent: bool, seeded: bool, times: nat -> string, ops: seq<Op>, uid: int)
    requires Restarts(ops) ==> persistent
    ensures var s := Run(t, First(persistent, seeded, times), ops);
      var log := FullRun(t, FirstFull(seeded, times), ops).log;
      && s.events == LastN(log, MAX_EVENTS)
      && s.counter == |log|
      && (forall i :: 0 <= i < |log| ==> log[i].uid == i + 1)
      && (HasUid(s.events, uid) <==> |log| - MAX_EVENTS < uid <= |log| && 0 < uid)
  {
    var s, f := First(persistent, seeded, times), FirstFull(seeded, times);
    FirstGood(persistent, seeded, times);
    RunGood(t, s, f, ops);
    AcknowledgeGood(Run(t, s, ops), FullRun(t, f, ops), uid);
  }

  const IS_RESTART: Op -> bool := (op: Op) => op.RestartOp?

  lemma RestartIdle(t: CharTable, s: State, f: Full, ops: seq<Op>, k: nat)
    requires Good(s, f) && s.persistent && k < |ops| && ops[k].RestartOp?
    ensures NoEffect(Stepper(t), s, ops, k)
  {
    RunGood(t, s, f, ops[..k]);
    RestartStays(t, Run(t, s, ops[..k]), FullRun(t, f, ops[..k]), ops[k]);
  }

  lemma RestartStays(t: CharTable, s: State, f: Full, op: Op)
    requires Good(s, f) && s.persistent && op.RestartOp?
    ensures Step(t, s, op) == s
  {
    RestartSame(s, f, op.times);
  }

  /** With a store, rebuilding the engine from its file at any points of a run changes
      nothing: events, flags, registry, uid counter and file are those of the run without
      the restarts. */
  lemma RestartsAreInvisible(t: CharTable, seeded: bool, times: nat -> string, ops: seq<Op>)
    ensures Run(t, First(true, seeded, times), ops) == Run(t, First(true, seeded, times), Without(ops, IS_RESTART))
  {
    var s := First(true, seeded, times);
    FirstGood(true, seeded, times);
    forall k | 0 <= k < |ops| && IS_RESTART(ops[k]) ensures NoEffect(Stepper(t), s, ops, k) {
      RestartIdle(t, s, FirstFull(seeded, times), ops, k);
    }
    SkipIdle(Stepper(t), s, ops, IS_RESTART);
  }

  // ---------------------------------------------------------------- triage counts

  lemma {:induction false} SeverityCountsSum(events: seq<Event>)
    requires forall e :: e in events ==> e.severity in SEVERITIES
    ensures SeverityCount(events, "critical") + SeverityCount(events, "high")
            + SeverityCount(events, "medium") + SeverityCount(events, "info") == |events|
  {
    if events != [] {
      SeverityCountsSum(events[..|events| - 1]);
      assert events[|events| - 1].severity in SEVERITIES;
    }
  }

  lemma {:induction false} PendingAreHoney(events: seq<Event>)
    ensures PendingCount(events) <= HoneyCount(events)
    ensures HoneyCount(MarkAll(events)) == HoneyCount(events)
  {
    if events != [] {
      PendingAreHoney(events[..|events| - 1]);
      assert MarkAll(events)[..|events| - 1] == MarkAll(events[..|events| - 1]);
    }
  }

  /** In every reachable state the four severity counts sum to the total, and
      unacknowledged <= honey triggers <= total. */
  lemma TriageCounts(t: CharTable, persistent: bool, seeded: bool, times: nat -> string, ops: seq<Op>)
    requires Restarts(ops) ==> persistent
    ensures var events := Run(t, First(persistent, seeded, times), ops).events;
      && SeverityCount(events, "critical") + SeverityCount(events, "high")
         + SeverityCount(events, "medium") + SeverityCount(events, "info") == |events|
      && PendingCount(events) <= HoneyCount(events) <= |events|
  {
    FirstGood(persistent, seeded, times);
    RunGood(t, First(persistent, seeded, times), FirstFull(seeded, times), ops);
    var s := Run(t, First(persistent, seeded, times), ops);
    RetainedEvents(s, FullRun(t, FirstFull(seeded, times), ops));
    SeverityCountsSum(s.events);
    PendingAreHoney(s.events);
  }

  /** `acknowledge_all` leaves nothing pending and keeps the honey count. */
  lemma AcknowledgeAllClears(s: State)
    ensures PendingCount(AcknowledgeAll(s).events) == 0
    ensures HoneyCount(AcknowledgeAll(s).events) == HoneyCount(s.events)
  {
    NothingPending(s.events);
    PendingAreHoney(s.events);
  }
}
