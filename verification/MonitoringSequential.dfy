/** Calls made one at a time, step by step through the locks, against the sequential engine. */
module MonitoringSequential {
  import opened Text
  import opened Monitoring
  import opened Runs
  import opened MonitoringSteps
  import opened MonitoringInvariant
  import opened MonitoringDurability
  import MonitoringRuns

  /** No call is entered before the last one has returned. */
  ghost predicate OneAtATime(t: CharTable, start: State, threads: nat, labels: seq<Label>) {
    forall k :: 0 <= k < |labels| && labels[k].Enter? ==> AllIdle(Run(t, start, threads, labels[..k]))
  }

  /** One thread at most is inside a call, and what it copied is later than the file. */
  ghost predicate Alone(w: World) {
    && (forall i, j :: 0 <= i < j < |w.threads| ==> w.threads[i].Idle? || w.threads[j].Idle?)
    && FileAt(w) < |w.past|
    && (forall i :: 0 <= i < |w.threads| && (w.threads[i].Holding? || w.threads[i].Writing?) ==>
          FileAt(w) <= w.threads[i].at < |w.past|)
  }

  lemma AloneMoves(w: World, w': World, i: nat, pc: Pc)
    requires i < |w.threads| && w'.threads == w.threads[i := pc] && |w'.past| == |w.past| + 1
    requires forall j :: 0 <= j < |w.threads| && j != i ==> w.threads[j].Idle?
    requires FileAt(w') < |w'.past|
    requires pc.Holding? || pc.Writing? ==> FileAt(w') <= pc.at < |w'.past|
    ensures Alone(w')
  {
  }

  lemma EnterAlone(t: CharTable, w: World, i: nat, call: Call)
    requires Alone(w) && AllIdle(w) && i < |w.threads|
    ensures Alone(EnterCall(t, w, i, call)) && FileAt(EnterCall(t, w, i, call)) == FileAt(w)
  {
    var w' := EnterCall(t, w, i, call);
    if w' != w { AloneMoves(w, w', i, w'.threads[i]); }
  }

  lemma NextAlone(t: CharTable, w: World, i: nat)
    requires Alone(w) && i < |w.threads| && !w.threads[i].Idle?
    ensures Alone(Next(t, w, i)) && FileAt(w) <= FileAt(Next(t, w, i))
  {
    var w' := Next(t, w, i);
    if w' != w { AloneMoves(w, w', i, w'.threads[i]); }
  }

  lemma StepAlone(t: CharTable, w: World, l: Label)
    requires Alone(w) && (l.Enter? ==> AllIdle(w))
    ensures Alone(Step(t, w, l)) && Ordered(t, w, l)
  {
    if l.thread < |w.threads| {
      if l.Enter? { EnterAlone(t, w, l.thread, l.call); }
      else if !w.threads[l.thread].Idle? { NextAlone(t, w, l.thread); }
    }
  }

  lemma OneAtATimeBefore(t: CharTable, start: State, threads: nat, labels: seq<Label>)
    requires OneAtATime(t, start, threads, labels) && labels != []
    ensures OneAtATime(t, start, threads, labels[..|labels| - 1])
  {
    var rest := labels[..|labels| - 1];
    forall k | 0 <= k < |rest| && rest[k].Enter? ensures AllIdle(Run(t, start, threads, rest[..k])) {
      assert rest[..k] == labels[..k] && labels[k].Enter?;
    }
  }

  lemma {:induction false} OneAtATimeIsOrdered(t: CharTable, start: State, threads: nat, labels: seq<Label>)
    requires OneAtATime(t, start, threads, labels)
    ensures InOrder(t, start, threads, labels) && Alone(Run(t, start, threads, labels))
  {
    if labels != [] {
      var rest, l := labels[..|labels| - 1], labels[|labels| - 1];
      OneAtATimeBefore(t, start, threads, labels);
      OneAtATimeIsOrdered(t, start, threads, rest);
      StepAlone(t, Run(t, start, threads, rest), l);
      forall k | 0 <= k < |labels| ensures Ordered(t, Run(t, start, threads, labels[..k]), labels[k]) {
        if k < |rest| { assert rest[..k] == labels[..k] && Ordered(t, Run(t, start, threads, rest[..k]), rest[k]); }
      }
    }
  }

  // ---------------------------------------------------------------- what a call does, seen from outside

  function OpOf(call: Call): MonitoringRuns.Op {
    match call
    case RecordCall(a, now) => MonitoringRuns.RecordOp(a, now)
    case SimulateCall(count, picks, host, now) => MonitoringRuns.SimulateOp(count, picks, host, now)
    case RegisterCall(objects) => MonitoringRuns.RegisterOp(objects)
    case AcknowledgeCall(uid) => MonitoringRuns.AcknowledgeOp(uid)
    case AcknowledgeAllCall => MonitoringRuns.AcknowledgeAllOp
  }

  /** The calls entered, in order. */
  function OpsOf(threads: nat, labels: seq<Label>): seq<MonitoringRuns.Op> {
    if labels == [] then []
    else
      var l := labels[|labels| - 1];
      OpsOf(threads, labels[..|labels| - 1]) + (if l.Enter? && l.thread < threads then [OpOf(l.call)] else [])
  }

  /** A thread at `pc` is on its way to `goal`. */
  ghost predicate Heads(t: CharTable, w: World, pc: Pc, goal: State)
    requires SharedOk(w.shared)
  {
    match pc
    case Idle => true
    case Recording(_, a, stamp, _) => goal == Record(t, Present(w, goal.seeded), a, stamp)
    case Decided(_, a, stamp, _, _, d) => goal == Persist(Push(Present(w, goal.seeded), BuildEvent(a, d, w.shared.counter + 1, stamp)))
    case AckingAll(since, _, _) =>
      since < |w.past| && SharedOk(w.past[since]) && goal == AcknowledgeAll(StateOf(w.past[since], w.disk, goal.seeded))
    case Saving => goal == Persist(Present(w, goal.seeded))
    case Holding(copy, _) => goal == Persist(Present(w, goal.seeded)) && CopyOf(copy, w.shared)
    case Writing(copy, _, done) =>
      && goal == Persist(Present(w, goal.seeded)) && CopyOf(copy, w.shared)
      && |done| <= |w.shared.log| && done == Objects(w.shared)[..|done|]
  }

  ghost predicate Tracks(t: CharTable, w: World, goal: State) {
    && SharedOk(w.shared)
    && (AllIdle(w) ==> Present(w, goal.seeded) == goal)
    && (forall i :: 0 <= i < |w.threads| ==> Heads(t, w, w.threads[i], goal))
  }

  lemma GrownObjects(s: Shared, e: Event)
    requires SharedOk(s) && e.uid == s.counter + 1
    ensures SharedOk(Grown(s, e)) && Objects(Grown(s, e)) == Append(Objects(s), e)
  {
    GrownGrows(s, e);
  }

  lemma GrownState(s: Shared, disk: Option<Written>, seeded: bool, e: Event)
    requires SharedOk(s) && e.uid == s.counter + 1
    ensures SharedOk(Grown(s, e)) && StateOf(Grown(s, e), disk, seeded) == Push(StateOf(s, disk, seeded), e)
  {
    GrownObjects(s, e);
  }

  lemma GrownUnfolds(s: Shared, n: nat, make: (nat, int) -> Event, s': Shared, e: Event)
    requires n > 0 && s' == GrownMany(s, n - 1, make)
    requires e == make(n - 1, s'.counter + 1) && e.uid == s'.counter + 1
    ensures GrownMany(s, n, make) == Grown(s', e)
  {
    assert e.(uid := s'.counter + 1) == e;
  }

  lemma PushedUnfolds(s: State, n: nat, make: (nat, int) -> Event, s': State)
    requires n > 0 && s' == PushMany(s, n - 1, make)
    ensures PushMany(s, n, make) == Push(s', make(n - 1, s'.counter + 1))
  {
  }

  lemma {:induction false} GrownManyState(s: Shared, disk: Option<Written>, seeded: bool, n: nat, make: (nat, int) -> Event)
    requires SharedOk(s) && forall k: nat, uid: int :: MonitoringRuns.MakesKnown(make, k, uid)
    ensures SharedOk(GrownMany(s, n, make))
    ensures StateOf(GrownMany(s, n, make), disk, seeded) == PushMany(StateOf(s, disk, seeded), n, make)
  {
    if n > 0 {
      GrownManyState(s, disk, seeded, n - 1, make);
      var s' := GrownMany(s, n - 1, make);
      var e := make(n - 1, s'.counter + 1);
      assert MonitoringRuns.MakesKnown(make, n - 1, s'.counter + 1);
      GrownUnfolds(s, n, make, s', e);
      PushedUnfolds(StateOf(s, disk, seeded), n, make, StateOf(s', disk, seeded));
      GrownState(s', disk, seeded, e);
    }
  }

  lemma FlaggedObjects(s: Shared, uid: int)
    requires SharedOk(s)
    ensures HasUid(Objects(s), uid) <==> uid in s.log
    ensures uid in s.log ==> uid in s.heap && SharedOk(Flagged(s, uid)) && Objects(Flagged(s, uid)) == MarkUid(Objects(s), uid)
  {
    var first := s.counter - |s.log| + 1;
    MonitoringRuns.HasUidAt(Objects(s), first, uid);
    if first <= uid < first + |s.log| {
      assert s.log[uid - first] == uid;
      MonitoringRuns.MarkUidFound(Objects(s), first, uid);
      FlaggedGrows(s, uid);
    }
  }

  /** Only thread `i` moves, and the others are idle. */
  lemma TracksMove(t: CharTable, w: World, w': World, i: nat, pc: Pc, goal: State)
    requires i < |w.threads| && w'.threads == w.threads[i := pc] && SharedOk(w'.shared)
    requires forall j :: 0 <= j < |w.threads| && j != i ==> w.threads[j].Idle?
    requires if pc.Idle? then Present(w', goal.seeded) == goal else Heads(t, w', pc, goal)
    ensures Tracks(t, w', goal)
  {
    assert w'.threads[i] == pc;
  }

  lemma SimulateTracks(t: CharTable, w: World, i: nat, call: Call, seeded: bool)
    requires SharedOk(w.shared) && AllIdle(w) && i < |w.threads| && w.engineLock.None? && call.SimulateCall?
    ensures Tracks(t, EnterCall(t, w, i, call), MonitoringRuns.Step(t, Present(w, seeded), OpOf(call)))
  {
    if w.shared.honey != [] {
      var n, make := SimulationCount(call.count), SimulationOf(w.shared.honey, call.picks, call.host, call.clock);
      MonitoringRuns.SimulationMakesKnown(w.shared.honey, call.picks, call.host, call.clock);
      GrownManyState(w.shared, w.disk, seeded, n, make);
      TracksMove(t, w, EnterCall(t, w, i, call), i, Saving, Persist(PushMany(Present(w, seeded), n, make)));
    }
  }

  lemma AcknowledgeTracks(t: CharTable, w: World, i: nat, call: Call, seeded: bool)
    requires SharedOk(w.shared) && AllIdle(w) && i < |w.threads| && w.engineLock.None? && call.AcknowledgeCall?
    ensures Tracks(t, EnterCall(t, w, i, call), MonitoringRuns.Step(t, Present(w, seeded), OpOf(call)))
  {
    FlaggedObjects(w.shared, call.uid);
    if call.uid in w.shared.log {
      TracksMove(t, w, EnterCall(t, w, i, call), i, Saving, Acknowledge(Present(w, seeded), call.uid));
    }
  }

  lemma AcknowledgeAllTracks(t: CharTable, w: World, i: nat, call: Call, seeded: bool)
    requires SharedOk(w.shared) && AllIdle(w) && i < |w.threads| && w.engineLock.None? && call.AcknowledgeAllCall?
    requires |w.past| > 0 && w.past[|w.past| - 1] == w.shared
    ensures Tracks(t, EnterCall(t, w, i, call), MonitoringRuns.Step(t, Present(w, seeded), OpOf(call)))
  {
    var w' := EnterCall(t, w, i, call);
    assert w'.past[Now(w)] == w.shared;
    TracksMove(t, w, w', i, AckingAll(Now(w), 0, 0), AcknowledgeAll(Present(w, seeded)));
  }

  lemma RegisterTracks(t: CharTable, w: World, i: nat, call: Call, seeded: bool)
    requires SharedOk(w.shared) && AllIdle(w) && i < |w.threads| && w.engineLock.None? && call.RegisterCall?
    ensures Tracks(t, EnterCall(t, w, i, call), MonitoringRuns.Step(t, Present(w, seeded), OpOf(call)))
  {
    var w' := EnterCall(t, w, i, call);
    assert Objects(w'.shared) == Objects(w.shared);
    TracksMove(t, w, w', i, Saving, Register(Present(w, seeded), call.objects));
  }

  lemma RecordTracks(t: CharTable, w: World, i: nat, call: Call, seeded: bool)
    requires SharedOk(w.shared) && AllIdle(w) && i < |w.threads| && call.RecordCall?
    ensures Tracks(t, EnterCall(t, w, i, call), MonitoringRuns.Step(t, Present(w, seeded), OpOf(call)))
  {
    var w' := EnterCall(t, w, i, call);
    TracksMove(t, w, w', i, w'.threads[i], Record(t, Present(w, seeded), call.a, call.now));
  }

  lemma EnterTracks(t: CharTable, w: World, i: nat, call: Call, seeded: bool)
    requires Inv(t, w) && AllIdle(w) && i < |w.threads| && SharedOk(w.shared)
    ensures Tracks(t, EnterCall(t, w, i, call), MonitoringRuns.Step(t, Present(w, seeded), OpOf(call)))
  {
    assert w.engineLock.None?;
    match call
    case RecordCall(_, _) => RecordTracks(t, w, i, call, seeded);
    case SimulateCall(_, _, _, _) => SimulateTracks(t, w, i, call, seeded);
    case RegisterCall(_) => RegisterTracks(t, w, i, call, seeded);
    case AcknowledgeCall(_) => AcknowledgeTracks(t, w, i, call, seeded);
    case AcknowledgeAllCall => AcknowledgeAllTracks(t, w, i, call, seeded);
  }

  lemma DecideTracks(t: CharTable, w: World, i: nat, goal: State)
    requires Alone(w) && i < |w.threads| && Tracks(t, w, goal) && w.threads[i].Recording?
    ensures Tracks(t, Next(t, w, i), goal)
  {
    if w.engineLock.None? {
      var w' := Next(t, w, i);
      assert Heads(t, w, w.threads[i], goal) && Present(w', goal.seeded) == Present(w, goal.seeded);
      TracksMove(t, w, w', i, w'.threads[i], goal);
    }
  }

  lemma AppendTracks(t: CharTable, w: World, i: nat, goal: State)
    requires Alone(w) && i < |w.threads| && Tracks(t, w, goal) && w.threads[i].Decided?
    ensures Tracks(t, Next(t, w, i), goal)
  {
    if w.engineLock.None? {
      var pc := w.threads[i];
      assert Heads(t, w, pc, goal);
      GrownState(w.shared, w.disk, goal.seeded, BuildEvent(pc.a, pc.d, w.shared.counter + 1, pc.now));
      TracksMove(t, w, Next(t, w, i), i, Saving, goal);
    }
  }

  /** Copying, taking the store lock, reading and writing. */
  lemma SaveTracks(t: CharTable, w: World, i: nat, goal: State)
    requires Alone(w) && i < |w.threads| && Tracks(t, w, goal)
    requires w.threads[i].Saving? || w.threads[i].Holding?
    ensures Tracks(t, Next(t, w, i), goal)
  {
    var w' := Next(t, w, i);
    assert Heads(t, w, w.threads[i], goal);
    if w' != w {
      assert Present(w', goal.seeded) == Present(w, goal.seeded);
      TracksMove(t, w, w', i, w'.threads[i], goal);
    }
  }

  lemma WriteTracks(t: CharTable, w: World, i: nat, goal: State)
    requires Alone(w) && i < |w.threads| && Tracks(t, w, goal) && w.threads[i].Writing?
    ensures Tracks(t, Next(t, w, i), goal)
  {
    var pc, w' := w.threads[i], Next(t, w, i);
    assert Heads(t, w, pc, goal);
    var k := |pc.done|;
    if k < |w.shared.log| {
      assert Present(w', goal.seeded) == Present(w, goal.seeded);
      assert Objects(w.shared)[..k + 1] == pc.done + [w.shared.heap[w.shared.log[k]]];
      TracksMove(t, w, w', i, w'.threads[i], goal);
    } else {
      assert pc.done == Objects(w.shared);
      TracksMove(t, w, w', i, Idle, goal);
    }
  }

  lemma AckGoesOn(t: CharTable, w: World, i: nat, goal: State)
    requires Inv(t, w) && Alone(w) && i < |w.threads| && Tracks(t, w, goal)
    requires w.threads[i].AckingAll? && w.threads[i].next < |w.shared.log|
    ensures Tracks(t, Next(t, w, i), goal)
  {
    var pc, w' := w.threads[i], Next(t, w, i);
    assert PcOk(t, w, pc) && Heads(t, w, pc, goal);
    AckNext(w.past[pc.since], w.shared, pc.next, pc.marked);
    assert w'.past[pc.since] == w.past[pc.since];
    TracksMove(t, w, w', i, w'.threads[i], goal);
  }

  lemma AckEndsTracks(t: CharTable, w: World, i: nat, goal: State)
    requires Inv(t, w) && Alone(w) && i < |w.threads| && Tracks(t, w, goal)
    requires w.threads[i].AckingAll? && w.threads[i].next >= |w.shared.log|
    ensures Tracks(t, Next(t, w, i), goal)
  {
    var pc := w.threads[i];
    assert PcOk(t, w, pc) && Heads(t, w, pc, goal);
    AckedAll(w.past[pc.since], w.shared, pc.next, pc.marked);
    TracksMove(t, w, Next(t, w, i), i, if pc.marked > 0 then Saving else Idle, goal);
  }

  lemma AckedAll(from: Shared, now: Shared, next: nat, marked: nat)
    requires AckOk(from, now, next, marked) && next >= |now.log|
    ensures Objects(now) == MarkAll(Objects(from)) && marked == PendingCount(Objects(from))
    ensures marked == 0 ==> Objects(now) == Objects(from)
  {
    var before := Objects(from);
    assert before[..next] == before;
    assert MarkAll(before) + before[next..] == MarkAll(before);
    MonitoringRuns.NothingPending(before);
  }

  lemma ContinueTracks(t: CharTable, w: World, i: nat, goal: State)
    requires Inv(t, w) && Alone(w) && i < |w.threads| && Tracks(t, w, goal)
    ensures Tracks(t, Next(t, w, i), goal)
  {
    match w.threads[i]
    case Idle =>
    case Recording(_, _, _, _) => DecideTracks(t, w, i, goal);
    case Decided(_, _, _, _, _, _) => AppendTracks(t, w, i, goal);
    case AckingAll(_, next, _) =>
      if next < |w.shared.log| { AckGoesOn(t, w, i, goal); } else { AckEndsTracks(t, w, i, goal); }
    case Saving => SaveTracks(t, w, i, goal);
    case Holding(_, _) => SaveTracks(t, w, i, goal);
    case Writing(_, _, _) => WriteTracks(t, w, i, goal);
  }

  /** The sequential engine after the calls entered so far. */
  function Sequential(t: CharTable, start: State, threads: nat, labels: seq<Label>): State {
    MonitoringRuns.Run(t, start, OpsOf(threads, labels))
  }

  lemma SequentialNext(t: CharTable, start: State, threads: nat, labels: seq<Label>)
    requires labels != []
    ensures Sequential(t, start, threads, labels)
         == NextGoal(t, threads, labels[|labels| - 1], Sequential(t, start, threads, labels[..|labels| - 1]))
  {
    var l, ops := labels[|labels| - 1], OpsOf(threads, labels[..|labels| - 1]);
    if l.Enter? && l.thread < threads {
      assert OpsOf(threads, labels) == ops + [OpOf(l.call)];
      assert (ops + [OpOf(l.call)])[..|ops|] == ops;
    } else {
      assert OpsOf(threads, labels) == ops;
    }
  }

  /** What a label makes of the goal. */
  function NextGoal(t: CharTable, threads: nat, l: Label, goal: State): State {
    if l.Enter? && l.thread < threads then MonitoringRuns.Step(t, goal, OpOf(l.call)) else goal
  }

  lemma StepTracks(t: CharTable, w: World, l: Label, goal: State)
    requires Inv(t, w) && Alone(w) && Tracks(t, w, goal) && (l.Enter? ==> AllIdle(w))
    ensures Tracks(t, Step(t, w, l), NextGoal(t, |w.threads|, l, goal))
  {
    if l.thread < |w.threads| {
      if l.Continue? {
        ContinueTracks(t, w, l.thread, goal);
      } else {
        EnterTracks(t, w, l.thread, l.call, goal.seeded);
      }
    }
  }

  lemma {:induction false} RunTracks(t: CharTable, start: State, threads: nat, labels: seq<Label>)
    requires Ready(start) && OneAtATime(t, start, threads, labels)
    ensures Tracks(t, Run(t, start, threads, labels), Sequential(t, start, threads, labels))
  {
    if labels != [] {
      var rest := labels[..|labels| - 1];
      OneAtATimeBefore(t, start, threads, labels);
      OneAtATimeIsOrdered(t, start, threads, rest);
      RunKeepsInv(t, start, threads, rest);
      RunTracks(t, start, threads, rest);
      ThreadsStay(t, start, threads, rest);
      SequentialNext(t, start, threads, labels);
      StepTracks(t, Run(t, start, threads, rest), labels[|labels| - 1], Sequential(t, start, threads, rest));
    } else {
      StartIsShared(start);
    }
  }

  lemma {:induction false} PushesKeepChoice(s: State, n: nat, make: (nat, int) -> Event)
    ensures PushMany(s, n, make).seeded == s.seeded
  {
    if n > 0 { PushesKeepChoice(s, n - 1, make); }
  }

  lemma CallKeepsChoice(t: CharTable, s: State, call: Call)
    ensures MonitoringRuns.Step(t, s, OpOf(call)).seeded == s.seeded
  {
    match call
    case SimulateCall(count, picks, host, clock) =>
      if s.honey != [] {
        PushesKeepChoice(s, SimulationCount(count), SimulationOf(s.honey, picks, host, clock));
      }
    case _ =>
  }

  lemma {:induction false} CallsKeepChoice(t: CharTable, start: State, threads: nat, labels: seq<Label>)
    ensures Sequential(t, start, threads, labels).seeded == start.seeded
  {
    if labels != [] {
      var l, before := labels[|labels| - 1], Sequential(t, start, threads, labels[..|labels| - 1]);
      CallsKeepChoice(t, start, threads, labels[..|labels| - 1]);
      SequentialNext(t, start, threads, labels);
      if l.Enter? { CallKeepsChoice(t, before, l.call); }
    }
  }

  lemma {:induction false} ThreadsStay(t: CharTable, start: State, threads: nat, labels: seq<Label>)
    ensures |Run(t, start, threads, labels).threads| == threads
  {
    if labels != [] { ThreadsStay(t, start, threads, labels[..|labels| - 1]); }
  }

  /** Calls made one at a time through the locks, in a process seeded or restored or neither, end in
      the state of the sequential engine after the same calls, file included, and an engine restarted
      there is that state again. */
  lemma OneAtATimeIsSequential(t: CharTable, start: State, threads: nat, labels: seq<Label>, times: nat -> string)
    requires Ready(start) && OneAtATime(t, start, threads, labels) && AllIdle(Run(t, start, threads, labels))
    ensures var w := Run(t, start, threads, labels);
      && SharedOk(w.shared)
      && Present(w, start.seeded) == Sequential(t, start, threads, labels)
      && Restarted(w, start.seeded, times) == Present(w, start.seeded)
  {
    RunTracks(t, start, threads, labels);
    CallsKeepChoice(t, start, threads, labels);
    OneAtATimeIsOrdered(t, start, threads, labels);
    OrderedWritesMakeRestartsInvisible(t, start, threads, labels, times);
  }
}
