/** Theorems over every interleaving of the engine's threads. */
module MonitoringThreads {
  import opened Text
  import opened Monitoring
  import opened Runs
  import opened MonitoringSteps
  import opened MonitoringInvariant

  /** However the process started, in every reachable state the log is the last min(counter, 500)
      uids without a gap, and every uid in it, and every one given out since, has one object. */
  lemma LogHasNoGaps(t: CharTable, start: State, threads: nat, labels: seq<Label>)
    requires Ready(start)
    ensures var s := Run(t, start, threads, labels).shared;
      && |s.log| == (if s.counter <= MAX_EVENTS then s.counter else MAX_EVENTS)
      && (forall k :: 0 <= k < |s.log| ==> s.log[k] == s.counter - |s.log| + 1 + k)
      && (forall u :: u in s.log || start.counter < u <= s.counter ==> u in s.heap)
      && (forall u :: u in s.heap ==> 1 <= u <= s.counter && s.heap[u].uid == u)
  {
    RunKeepsInv(t, start, threads, labels);
    var w := Run(t, start, threads, labels);
    FirstInstant(t, start, threads, labels);
    assert SharedOk(w.past[|w.past| - 1]) && Grows(w.past[0], w.shared);
  }

  /** A `record_event` call has either not appended yet or made exactly one event, and that
      event carries the verdict of the registry at one instant between the call's start and
      its append. */
  lemma EachRecordMakesOneEvent(t: CharTable, start: State, threads: nat, labels: seq<Label>, op: nat)
    requires Ready(start)
    requires op < Run(t, start, threads, labels).ops
    ensures var w := Run(t, start, threads, labels);
      && (Flying(w.threads, op) <==> Unmade(w.makers, op))
      && (forall u, v :: MadeBy(w.makers, op, u) && MadeBy(w.makers, op, v) ==> u == v)
      && (forall u :: MadeBy(w.makers, op, u) ==>
            var m := w.makers[u];
            && m.begun <= m.at < m.appended < |w.past| && u + 1 in w.shared.heap
            && Later(BuildEvent(m.a, Decide(t, w.past[m.at].honey, m.a), u + 1, m.now), w.shared.heap[u + 1]))
  {
    RunKeepsInv(t, start, threads, labels);
    var w := Run(t, start, threads, labels);
    forall i | 0 <= i < |w.threads| && InFlight(w.threads[i], op) ensures Unmade(w.makers, op) {
      assert PcOk(t, w, w.threads[i]);
    }
    forall u | MadeBy(w.makers, op, u) ensures MakerOk(t, w.past, w.shared, w.makers[u], u + 1) {
    }
  }

  /** The file always holds the event list, registry and counter of one past instant `at`, each
      flag lying between its value then and its value at the write. */
  lemma EachWriteIsOneInstant(t: CharTable, start: State, threads: nat, labels: seq<Label>)
    requires Ready(start)
    requires Run(t, start, threads, labels).disk.Some?
    ensures var w := Run(t, start, threads, labels);
      var d := w.disk.value;
      && d.at <= d.when < |w.past|
      && d.content.counter == w.past[d.at].counter
      && d.content.honey == w.past[d.at].honey
      && |d.content.events| == |w.past[d.at].log|
      && forall k :: 0 <= k < |d.content.events| ==>
           var u := w.past[d.at].log[k];
           && u in w.past[d.at].heap && u in w.past[d.when].heap
           && Later(w.past[d.at].heap[u], d.content.events[k])
           && Later(d.content.events[k], w.past[d.when].heap[u])
  {
    RunKeepsInv(t, start, threads, labels);
  }

  /** One thread at most is inside `save_snapshot`, so the temporary file has one writer. */
  lemma OneWriterAtATime(t: CharTable, start: State, threads: nat, labels: seq<Label>, i: nat, j: nat)
    requires Ready(start)
    requires var w := Run(t, start, threads, labels);
      i < |w.threads| && j < |w.threads| && w.threads[i].Writing? && w.threads[j].Writing?
    ensures i == j
  {
    RunKeepsInv(t, start, threads, labels);
  }

  /** When `acknowledge_all` finishes its loop it has counted exactly the events pending when it
      took the lock, none is pending now, and nothing else about the log changed meanwhile. */
  lemma AcknowledgeAllIsAtomic(t: CharTable, start: State, threads: nat, labels: seq<Label>, i: nat)
    requires Ready(start)
    requires var w := Run(t, start, threads, labels);
      i < |w.threads| && w.threads[i].AckingAll? && w.threads[i].next >= |w.shared.log|
    ensures var w := Run(t, start, threads, labels);
      var since := w.threads[i].since;
      && since < |w.past| && SharedOk(w.past[since]) && SharedOk(w.shared)
      && w.threads[i].marked == PendingCount(Objects(w.past[since]))
      && Objects(w.shared) == MarkAll(Objects(w.past[since]))
      && w.shared.log == w.past[since].log && w.shared.honey == w.past[since].honey
  {
    RunKeepsInv(t, start, threads, labels);
    var w := Run(t, start, threads, labels);
    var pc := w.threads[i];
    assert PcOk(t, w, pc);
    var before := Objects(w.past[pc.since]);
    assert before[..pc.next] == before;
    assert MarkAll(before) + before[pc.next..] == MarkAll(before);
  }

  // ---------------------------------------------------------------- writes in reverse order

  /** An engine built without a seed and without a file. */
  const EMPTY: State := State([], 0, [], None, true, false)

  lemma RunLast(t: CharTable, start: State, threads: nat, labels: seq<Label>, l: Label)
    ensures Run(t, start, threads, labels + [l]) == Step(t, Run(t, start, threads, labels), l)
  {
    assert (labels + [l])[..|labels|] == labels;
  }

  /** Thread 0 registers a deployment and copies; thread 1 records an event and writes its newer
      copy; then thread 0 writes its older one. */
  function ReversedWrites(a: RecordArgs): seq<Label> {
    [Enter(0, RegisterCall([])), Continue(0),
     Enter(1, RecordCall(a, "")), Continue(1), Continue(1), Continue(1), Continue(1), Continue(1), Continue(1),
     Continue(0), Continue(0)]
  }

  /** What matters of the world along that run: thread 0 holds its early copy until `late`. */
  predicate Midway(w: World, second: Pc) {
    && w.threads == [Holding(Copy([], [], 0), 1), second]
    && w.shared.log == [1] && w.shared.counter == 1 && w.shared.honey == [] && 1 in w.shared.heap
    && w.engineLock == None && w.storeLock == None
  }

  lemma ReversedWritesCopy(t: CharTable, a: RecordArgs) returns (w: World)
    ensures w == Run(t, EMPTY, 2, ReversedWrites(a)[..2])
    ensures w.threads == [Holding(Copy([], [], 0), 1), Idle] && w.shared == Shared([], map[], [], 0)
    ensures w.engineLock == None && w.storeLock == None && |w.past| > 0
  {
    var labels := ReversedWrites(a);
    w := Init(EMPTY, 2);
    assert labels[..0] == [];
    w := RunNext(t, labels, 0, w);
    w := RunNext(t, labels, 1, w);
  }

  lemma ReversedWritesEnter(t: CharTable, a: RecordArgs) returns (w: World)
    ensures w == Run(t, EMPTY, 2, ReversedWrites(a)[..3])
    ensures |w.threads| == 2 && w.threads[0] == Holding(Copy([], [], 0), 1) && w.threads[1].Recording?
    ensures w.shared == Shared([], map[], [], 0) && w.engineLock == None && w.storeLock == None && |w.past| > 0
  {
    w := ReversedWritesCopy(t, a);
    w := RunNext(t, ReversedWrites(a), 2, w);
  }

  lemma ReversedWritesDecide(t: CharTable, a: RecordArgs) returns (w: World)
    ensures w == Run(t, EMPTY, 2, ReversedWrites(a)[..4])
    ensures |w.threads| == 2 && w.threads[0] == Holding(Copy([], [], 0), 1) && w.threads[1].Decided?
    ensures w.shared == Shared([], map[], [], 0) && w.engineLock == None && w.storeLock == None
  {
    w := ReversedWritesEnter(t, a);
    w := RunNext(t, ReversedWrites(a), 3, w);
  }

  lemma ReversedWritesStart(t: CharTable, a: RecordArgs) returns (w: World)
    ensures w == Run(t, EMPTY, 2, ReversedWrites(a)[..5]) && Midway(w, Saving)
  {
    w := ReversedWritesDecide(t, a);
    w := RunNext(t, ReversedWrites(a), 4, w);
  }

  lemma ReversedWritesHold(t: CharTable, a: RecordArgs, w: World) returns (w': World)
    requires w == Run(t, EMPTY, 2, ReversedWrites(a)[..5]) && Midway(w, Saving)
    ensures w' == Run(t, EMPTY, 2, ReversedWrites(a)[..6])
    ensures w'.threads == [Holding(Copy([], [], 0), 1), Holding(Copy([1], [], 1), Now(w))]
    ensures w'.shared == w.shared && w'.engineLock == None && w'.storeLock == None
  {
    w' := RunNext(t, ReversedWrites(a), 5, w);
  }

  lemma ReversedWritesTake(t: CharTable, a: RecordArgs, w: World) returns (w': World)
    requires w == Run(t, EMPTY, 2, ReversedWrites(a)[..5]) && Midway(w, Saving)
    ensures w' == Run(t, EMPTY, 2, ReversedWrites(a)[..7])
    ensures w'.threads == [Holding(Copy([], [], 0), 1), Writing(Copy([1], [], 1), Now(w), [])]
    ensures w'.shared == w.shared && w'.engineLock == None
  {
    w' := ReversedWritesHold(t, a, w);
    w' := RunNext(t, ReversedWrites(a), 6, w');
  }

  lemma ReversedWritesMiddle(t: CharTable, a: RecordArgs, w: World) returns (w': World)
    requires w == Run(t, EMPTY, 2, ReversedWrites(a)[..5]) && Midway(w, Saving)
    ensures w' == Run(t, EMPTY, 2, ReversedWrites(a)[..9]) && Midway(w', Idle)
  {
    w' := ReversedWritesRead(t, a, w);
    w' := RunNext(t, ReversedWrites(a), 8, w');
  }

  lemma ReversedWritesRead(t: CharTable, a: RecordArgs, w: World) returns (w': World)
    requires w == Run(t, EMPTY, 2, ReversedWrites(a)[..5]) && Midway(w, Saving)
    ensures w' == Run(t, EMPTY, 2, ReversedWrites(a)[..8])
    ensures |w'.threads| == 2 && w'.threads[0] == Holding(Copy([], [], 0), 1) && w'.threads[1].Writing?
    ensures w'.threads[1].copy == Copy([1], [], 1) && |w'.threads[1].done| == 1
    ensures w'.shared == w.shared && w'.engineLock == None
  {
    w' := ReversedWritesTake(t, a, w);
    w' := RunNext(t, ReversedWrites(a), 7, w');
  }

  lemma ReversedWritesEnd(t: CharTable, a: RecordArgs) returns (w: World)
    ensures w == Run(t, EMPTY, 2, ReversedWrites(a))
    ensures w.threads == [Idle, Idle] && w.shared.counter == 1 && w.shared.log == [1]
    ensures w.disk.Some? && w.disk.value.content == Snapshot(0, [], [])
  {
    var labels := ReversedWrites(a);
    w := ReversedWritesStart(t, a);
    w := ReversedWritesMiddle(t, a, w);
    w := RunNext(t, labels, 9, w);
    w := RunNext(t, labels, 10, w);
    assert labels[..11] == labels;
  }

  lemma RunNext(t: CharTable, labels: seq<Label>, k: nat, w: World) returns (w': World)
    requires k < |labels| && w == Run(t, EMPTY, 2, labels[..k])
    ensures w' == Step(t, w, labels[k]) == Run(t, EMPTY, 2, labels[..k + 1])
  {
    assert labels[..k + 1] == labels[..k] + [labels[k]];
    RunLast(t, EMPTY, 2, labels[..k], labels[k]);
    w' := Step(t, w, labels[k]);
  }

  /** Writes can land in the reverse order of their copies: with every call returned, the file
      may lack an event that was recorded and answered, and an engine restarted on it gives
      that event's uid out again: the writes are not in the order of their copies. */
  lemma StaleWriteLosesAnEvent(t: CharTable, a: RecordArgs, times: nat -> string)
    ensures exists labels :: var w := Run(t, EMPTY, 2, labels);
      && (forall i :: 0 <= i < |w.threads| ==> w.threads[i].Idle?)
      && w.disk.Some? && w.disk.value.content.counter < w.shared.counter
      && Start(Some(w.disk.value.content), true, false, times).counter + 1 in w.shared.log
  {
    var w := ReversedWritesEnd(t, a);
    assert Run(t, EMPTY, 2, ReversedWrites(a)) == w;
  }
}
