/** The monitoring engine under any number of threads.  One step is one section under the
    engine lock, or one thing done without it: `_correlate`, the append, the copy taken by
    `_persist`, the reading of one event while the store serialises, and the disk write are
    separate.  Events are shared objects: a snapshot copies references, so a flag may change
    between the copy and the read. */
module MonitoringSteps {
  import opened Text
  import opened Monitoring
  import opened Runs

  /** What the engine lock protects.  `log` lists event objects by uid; `heap` holds every
      object of the process, its flag changing in place. */
  datatype Shared = Shared(log: seq<int>, heap: map<int, Event>, honey: seq<Honey>, counter: int)

  /** The references and values `_persist` copies under the lock. */
  datatype Copy = Copy(uids: seq<int>, honey: seq<Honey>, counter: int)

  /** Where a thread is.  `at`, `begun` are the instants (positions in `past`) at which it read. */
  datatype Pc =
    | Idle
    | Recording(op: nat, a: RecordArgs, now: string, begun: nat)
    | Decided(op: nat, a: RecordArgs, now: string, begun: nat, at: nat, d: Decision)
    | AckingAll(since: nat, next: nat, marked: nat)
    | Saving
    | Holding(copy: Copy, at: nat)
    | Writing(copy: Copy, at: nat, done: seq<Event>)

  /** Who made an event: a `record_event` call, with the instants it began, correlated and
      appended, or a simulation; or it was there at the start. */
  datatype Maker =
    | ByRecord(op: nat, a: RecordArgs, now: string, begun: nat, at: nat, appended: nat)
    | BySimulation
    | Earlier

  /** A disk write: its content, the instant of its copy and the instant of the write. */
  datatype Written = Written(content: Snapshot, at: nat, when: nat)

  /** `past` lists every instant so far, the last being now; `makers[u - 1]` made event `u`. */
  datatype World = World(
    shared: Shared, threads: seq<Pc>, engineLock: Option<nat>, storeLock: Option<nat>, disk: Option<Written>,
    past: seq<Shared>, makers: seq<Maker>, ops: nat)

  datatype Call =
    | RecordCall(a: RecordArgs, now: string)
    | SimulateCall(count: int, picks: nat -> Pick, host: string, clock: Clock)
    | RegisterCall(objects: seq<Honey>)
    | AcknowledgeCall(uid: int)
    | AcknowledgeAllCall

  /** A thread enters a call, or takes its next step. */
  datatype Label = Enter(thread: nat, call: Call) | Continue(thread: nat)

  // ---------------------------------------------------------------- the start

  /** The last events of a log numbered without a gap up to the counter, as the engine holds them. */
  predicate Numbered(events: seq<Event>, counter: int) {
    && counter >= 0
    && |events| == (if counter <= MAX_EVENTS then counter else MAX_EVENTS)
    && forall k :: 0 <= k < |events| ==> events[k].uid == counter - |events| + 1 + k && events[k].severity in SEVERITIES
  }

  /** An engine with a store as it is built: from no file, seeded or not, or from what an engine wrote. */
  predicate Ready(s: State) {
    && s.persistent && Numbered(s.events, s.counter) && (s.seeded ==> s.counter > 0)
    && (s.disk.None? ==> s.events == [] && s.honey == [])
    && (s.disk.Some? ==> s.disk.value == Snapshot(s.counter, s.honey, s.events))
  }

  /** Each event as an object by its uid. */
  function HeapOf(events: seq<Event>): map<int, Event> {
    if events == [] then map[] else HeapOf(events[..|events| - 1])[events[|events| - 1].uid := events[|events| - 1]]
  }

  function UidsOf(events: seq<Event>): seq<int> {
    seq(|events|, k requires 0 <= k < |events| => events[k].uid)
  }

  function SharedOf(s: State): Shared {
    Shared(UidsOf(s.events), HeapOf(s.events), s.honey, s.counter)
  }

  /** The file a process starts with counts as written at its first instant. */
  function Init(start: State, threads: nat): World {
    World(SharedOf(start), seq(threads, _ => Idle), None, None,
          if start.disk.Some? then Some(Written(start.disk.value, 0, 0)) else None,
          [SharedOf(start)], if start.counter < 0 then [] else seq(start.counter, _ => Earlier), 0)
  }

  // ---------------------------------------------------------------- steps

  /** Adds a new object to the log; `e.uid` is the next uid. */
  function Grown(s: Shared, e: Event): Shared {
    Shared(LastN(s.log + [e.uid], MAX_EVENTS), s.heap[e.uid := e], s.honey, s.counter + 1)
  }

  function GrownMany(s: Shared, n: nat, make: (nat, int) -> Event): Shared {
    if n == 0 then s
    else
      var s' := GrownMany(s, n - 1, make);
      Grown(s', make(n - 1, s'.counter + 1).(uid := s'.counter + 1))
  }

  function Flagged(s: Shared, uid: int): Shared
    requires uid in s.heap
  {
    s.(heap := s.heap[uid := s.heap[uid].(acknowledged := true)])
  }

  /** The world after thread `i` moves to `pc` and the shared part becomes `s`. */
  function Moved(w: World, i: nat, pc: Pc, s: Shared): World
    requires i < |w.threads|
  {
    w.(threads := w.threads[i := pc], shared := s, past := w.past + [s])
  }

  /** The current instant. */
  function Now(w: World): nat { if w.past == [] then 0 else |w.past| - 1 }

  function EnterCall(t: CharTable, w: World, i: nat, call: Call): World
    requires i < |w.threads|
  {
    match call
    case RecordCall(a, now) => Moved(w, i, Recording(w.ops, a, now, Now(w)), w.shared).(ops := w.ops + 1)
    case SimulateCall(count, picks, host, now) =>
      if w.engineLock.Some? || w.shared.honey == [] then w
      else
        var n := SimulationCount(count);
        Moved(w, i, Saving, GrownMany(w.shared, n, SimulationOf(w.shared.honey, picks, host, now)))
        .(makers := w.makers + seq(n, _ => BySimulation))
    case RegisterCall(objects) =>
      if w.engineLock.Some? then w else Moved(w, i, Saving, w.shared.(honey := Named(objects)))
    case AcknowledgeCall(uid) =>
      if w.engineLock.Some? || uid !in w.shared.log || uid !in w.shared.heap then w
      else Moved(w, i, Saving, Flagged(w.shared, uid))
    case AcknowledgeAllCall =>
      if w.engineLock.Some? then w
      else Moved(w, i, AckingAll(Now(w), 0, 0), w.shared).(engineLock := Some(i))
  }

  function Next(t: CharTable, w: World, i: nat): World
    requires i < |w.threads|
  {
    match w.threads[i]
    case Idle => w
    case Recording(op, a, stamp, begun) =>
      if w.engineLock.Some? then w
      else Moved(w, i, Decided(op, a, stamp, begun, Now(w), Decide(t, w.shared.honey, a)), w.shared)
    case Decided(op, a, stamp, begun, at, d) =>
      if w.engineLock.Some? then w
      else
        Moved(w, i, Saving, Grown(w.shared, BuildEvent(a, d, w.shared.counter + 1, stamp)))
        .(makers := w.makers + [ByRecord(op, a, stamp, begun, at, |w.past|)])
    case AckingAll(since, k, marked) =>
      if k < |w.shared.log| && w.shared.log[k] in w.shared.heap then
        var uid := w.shared.log[k];
        if Pending(w.shared.heap[uid])
        then Moved(w, i, AckingAll(since, k + 1, marked + 1), Flagged(w.shared, uid))
        else Moved(w, i, AckingAll(since, k + 1, marked), w.shared)
      else Moved(w, i, if marked > 0 then Saving else Idle, w.shared).(engineLock := None)
    case Saving =>
      if w.engineLock.Some? then w
      else Moved(w, i, Holding(Copy(w.shared.log, w.shared.honey, w.shared.counter), Now(w)), w.shared)
    case Holding(copy, at) =>
      if w.storeLock.Some? then w
      else Moved(w, i, Writing(copy, at, []), w.shared).(storeLock := Some(i))
    case Writing(copy, at, done) =>
      if |done| < |copy.uids| && copy.uids[|done|] in w.shared.heap then
        Moved(w, i, Writing(copy, at, done + [w.shared.heap[copy.uids[|done|]]]), w.shared)
      else
        Moved(w, i, Idle, w.shared)
        .(storeLock := None, disk := Some(Written(Snapshot(copy.counter, copy.honey, done), at, |w.past|)))
  }

  function Step(t: CharTable, w: World, l: Label): World {
    if l.thread >= |w.threads| then w
    else
      match l
      case Enter(i, call) => if w.threads[i].Idle? then EnterCall(t, w, i, call) else w
      case Continue(i) => Next(t, w, i)
  }

  function Stepper(t: CharTable): (World, Label) -> World {
    (w: World, l: Label) => Step(t, w, l)
  }

  /** A run of a process built as `start`. */
  function Run(t: CharTable, start: State, threads: nat, labels: seq<Label>): World {
    Fold(Stepper(t), Init(start, threads), labels)
  }
}
