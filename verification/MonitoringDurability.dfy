/** What a restart finds in the file that concurrent calls left behind: when it is the engine's
    present state, and when it is an older one. */
module MonitoringDurability {
  import opened Text
  import opened Monitoring
  import opened Runs
  import opened MonitoringSteps
  import opened MonitoringInvariant
  import MonitoringRuns

  // ---------------------------------------------------------------- severities

  /** Every event made or about to be made has a known severity. */
  ghost predicate Known(w: World) {
    && AllKnown(w.shared)
    && (forall i :: 0 <= i < |w.threads| && w.threads[i].Decided? ==> w.threads[i].d.severity in SEVERITIES)
  }

  ghost predicate AllKnown(s: Shared) {
    forall u :: u in s.heap ==> s.heap[u].severity in SEVERITIES
  }

  lemma {:induction false} GrownManyKnown(s: Shared, n: nat, make: (nat, int) -> Event)
    requires AllKnown(s) && forall k: nat, uid: int :: MonitoringRuns.MakesKnown(make, k, uid)
    ensures AllKnown(GrownMany(s, n, make))
  {
    if n > 0 {
      GrownManyKnown(s, n - 1, make);
      var s' := GrownMany(s, n - 1, make);
      var e := make(n - 1, s'.counter + 1);
      assert MonitoringRuns.MakesKnown(make, n - 1, s'.counter + 1);
      assert AllKnown(Grown(s', e.(uid := s'.counter + 1)));
    }
  }

  lemma StepKnown(t: CharTable, w: World, l: Label)
    requires Known(w)
    ensures Known(Step(t, w, l))
  {
    if l.thread < |w.threads| {
      if l.Continue? && w.threads[l.thread].Recording? {
        MonitoringRuns.DecideSeverity(t, w.shared.honey, w.threads[l.thread].a);
      } else if l.Enter? && l.call.SimulateCall? && w.shared.honey != [] {
        var n, make := SimulationCount(l.call.count), SimulationOf(w.shared.honey, l.call.picks, l.call.host, l.call.clock);
        MonitoringRuns.SimulationMakesKnown(w.shared.honey, l.call.picks, l.call.host, l.call.clock);
        GrownManyKnown(w.shared, n, make);
      }
    }
  }

  lemma InitKnown(start: State, threads: nat)
    requires Ready(start)
    ensures Known(Init(start, threads))
  {
    StartIsShared(start);
  }

  lemma {:induction false} RunKnown(t: CharTable, start: State, threads: nat, labels: seq<Label>)
    requires Ready(start)
    ensures Known(Run(t, start, threads, labels))
  {
    if labels != [] {
      RunKnown(t, start, threads, labels[..|labels| - 1]);
      StepKnown(t, Run(t, start, threads, labels[..|labels| - 1]), labels[|labels| - 1]);
    } else {
      InitKnown(start, threads);
    }
  }

  // ---------------------------------------------------------------- restarting on a file

  /** A file as the engine writes it is what an engine built on it holds. */
  lemma StartOnFile(c: Snapshot, seeded: bool, times: nat -> string)
    requires Numbered(c.events, c.counter) && (seeded ==> c.counter > 0)
    ensures Start(Some(c), true, seeded, times) == State(c.events, c.counter, c.honey, Some(c), true, seeded)
  {
    assert forall e :: e in c.events ==> 0 < e.uid <= c.counter && e.severity != "";
    MonitoringRuns.ReviveAllKeeps(c.events);
    MaxUidBounds(c.events);
  }

  /** Every state the sequential engine comes to can be the start of a process, and so can the one
      built without a file. */
  lemma GoodIsReady(s: State, f: MonitoringRuns.Full)
    requires MonitoringRuns.Good(s, f) && s.persistent
    ensures Ready(s)
  {
    var first := s.counter - |s.events|;
    forall k | 0 <= k < |s.events| ensures s.events[k].uid == first + 1 + k && s.events[k].severity in SEVERITIES {
      assert s.events[k] == f.log[first + k];
    }
  }

  /** Built on no file, or on a file an engine wrote, seeded as before, a process can start. */
  lemma StartIsReady(file: Option<Snapshot>, seeded: bool, times: nat -> string)
    requires file.Some? ==> Numbered(file.value.events, file.value.counter) && (seeded ==> file.value.counter > 0)
    ensures Ready(Start(file, true, seeded, times))
  {
    if file.Some? {
      StartOnFile(file.value, seeded, times);
    } else {
      MonitoringRuns.FirstGood(true, seeded, times);
      GoodIsReady(MonitoringRuns.First(true, seeded, times), MonitoringRuns.FirstFull(seeded, times));
    }
  }

  lemma PastStays(t: CharTable, w: World, l: Label)
    ensures Step(t, w, l).past == w.past || Step(t, w, l).past == w.past + [Step(t, w, l).shared]
  {
  }

  lemma {:induction false} NeverBelowStart(t: CharTable, start: State, threads: nat, labels: seq<Label>, k: nat)
    requires Ready(start) && k < |Run(t, start, threads, labels).past|
    ensures Run(t, start, threads, labels).past[k].counter >= start.counter
  {
    if labels != [] {
      var w, w' := Run(t, start, threads, labels[..|labels| - 1]), Run(t, start, threads, labels);
      PastStays(t, w, labels[|labels| - 1]);
      if k < |w.past| {
        NeverBelowStart(t, start, threads, labels[..|labels| - 1], k);
      } else {
        RunKeepsInv(t, start, threads, labels);
        FirstInstant(t, start, threads, labels);
        assert Grows(w'.past[0], w'.shared);
      }
    }
  }

  lemma FileSeverities(w: World)
    requires PastOk(w.past, w.shared) && AllKnown(w.shared) && w.disk.Some? && WrittenOk(w.past, w.disk.value)
    ensures forall e :: e in w.disk.value.content.events ==> e.severity in SEVERITIES
  {
    var d := w.disk.value;
    var from := w.past[d.at];
    assert SharedOk(from) && Grows(w.past[d.when], w.shared);
    forall e | e in d.content.events ensures e.severity in SEVERITIES {
      var k :| 0 <= k < |d.content.events| && d.content.events[k] == e;
      assert Later(from.heap[from.log[k]], e) && Later(e, w.past[d.when].heap[from.log[k]]);
      assert Later(w.past[d.when].heap[from.log[k]], w.shared.heap[from.log[k]]);
    }
  }

  /** The file is always one a process can start with. */
  lemma FileIsNumbered(t: CharTable, start: State, threads: nat, labels: seq<Label>)
    requires Ready(start) && Run(t, start, threads, labels).disk.Some?
    ensures var c := Run(t, start, threads, labels).disk.value.content;
      Numbered(c.events, c.counter) && (start.seeded ==> c.counter > 0)
  {
    RunKeepsInv(t, start, threads, labels);
    RunKnown(t, start, threads, labels);
    var w := Run(t, start, threads, labels);
    var c, from := w.disk.value.content, w.past[w.disk.value.at];
    FileSeverities(w);
    UidsOfFile(w);
    NeverBelowStart(t, start, threads, labels, w.disk.value.at);
    assert SharedOk(from);
    forall k | 0 <= k < |c.events| ensures c.events[k].uid == from.log[k] && c.events[k].severity in SEVERITIES {
      assert UidsOf(c.events)[k] == from.log[k];
      assert c.events[k] in c.events;
    }
  }

  // ---------------------------------------------------------------- which files are behind

  /** An event was appended after instant `at`. */
  ghost predicate AppendedAfter(past: seq<Shared>, at: nat) {
    at < |past| && exists k :: at < k < |past| && past[k].counter > past[at].counter
  }

  /** The registry was changed after instant `at`. */
  ghost predicate RegisteredAfter(past: seq<Shared>, at: nat) {
    exists k :: at < k < |past| && past[k].honey != past[k - 1].honey
  }

  lemma {:induction false} SameRegistry(past: seq<Shared>, at: nat, k: nat)
    requires at <= k < |past| && !RegisteredAfter(past, at)
    ensures past[k].honey == past[at].honey
  {
    if at < k { SameRegistry(past, at, k - 1); }
  }

  /** What an engine restarted on the file holds. */
  function Restarted(w: World, seeded: bool, times: nat -> string): State {
    Start(if w.disk.Some? then Some(w.disk.value.content) else None, true, seeded, times)
  }

  lemma RestartedOnFile(t: CharTable, start: State, threads: nat, labels: seq<Label>, times: nat -> string)
    requires Ready(start) && Run(t, start, threads, labels).disk.Some?
    ensures var w := Run(t, start, threads, labels);
      var c := w.disk.value.content;
      Restarted(w, start.seeded, times) == State(c.events, c.counter, c.honey, Some(c), true, start.seeded)
  {
    FileIsNumbered(t, start, threads, labels);
    StartOnFile(Run(t, start, threads, labels).disk.value.content, start.seeded, times);
  }

  /** Whatever file a process leaves behind, the next one can start with it. */
  lemma NextProcessIsReady(t: CharTable, start: State, threads: nat, labels: seq<Label>, times: nat -> string)
    requires Ready(start)
    ensures Ready(Restarted(Run(t, start, threads, labels), start.seeded, times))
  {
    var w := Run(t, start, threads, labels);
    if w.disk.Some? {
      FileIsNumbered(t, start, threads, labels);
      StartIsReady(Some(w.disk.value.content), start.seeded, times);
    } else {
      StartIsReady(None, start.seeded, times);
    }
  }

  /** Whatever the interleaving, a restart on the file is behind exactly when an event was
      appended after the instant of the copy last written: then the counter falls back, the
      log differs, and the next uid given out is already in use.  The registry can be behind
      only if one was registered after that instant. */
  lemma FileIsBehindIff(t: CharTable, start: State, threads: nat, labels: seq<Label>, times: nat -> string)
    requires Ready(start)
    requires Run(t, start, threads, labels).disk.Some?
    ensures var w := Run(t, start, threads, labels);
      var restarted := Restarted(w, start.seeded, times);
      && (restarted.counter < w.shared.counter <==> AppendedAfter(w.past, w.disk.value.at))
      && (UidsOf(restarted.events) != w.shared.log <==> AppendedAfter(w.past, w.disk.value.at))
      && (restarted.counter + 1 in w.shared.heap <==> AppendedAfter(w.past, w.disk.value.at))
      && (restarted.honey != w.shared.honey ==> RegisteredAfter(w.past, w.disk.value.at))
  {
    RunKeepsInv(t, start, threads, labels);
    RestartedOnFile(t, start, threads, labels, times);
    var w := Run(t, start, threads, labels);
    AppendedIff(w);
    LogsDifferIff(w);
    RegistryDiffers(w);
  }

  lemma RegistryDiffers(w: World)
    requires PastOk(w.past, w.shared) && w.disk.Some? && WrittenOk(w.past, w.disk.value)
    ensures w.disk.value.content.honey != w.shared.honey ==> RegisteredAfter(w.past, w.disk.value.at)
  {
    if !RegisteredAfter(w.past, w.disk.value.at) { SameRegistry(w.past, w.disk.value.at, |w.past| - 1); }
  }

  lemma AppendedIff(w: World)
    requires PastOk(w.past, w.shared) && w.disk.Some? && WrittenOk(w.past, w.disk.value)
    ensures w.disk.value.content.counter < w.shared.counter <==> AppendedAfter(w.past, w.disk.value.at)
    ensures 0 <= w.disk.value.content.counter <= w.shared.counter
    ensures w.disk.value.content.counter + 1 in w.shared.heap <==> w.disk.value.content.counter < w.shared.counter
  {
    var at, last := w.disk.value.at, |w.past| - 1;
    assert SharedOk(w.past[at]) && SharedOk(w.past[last]) && Grows(w.past[at], w.shared);
    if AppendedAfter(w.past, at) {
      var k :| at < k < |w.past| && w.past[k].counter > w.past[at].counter;
      assert Grows(w.past[k], w.shared);
    } else if at < last {
      assert w.past[last].counter <= w.past[at].counter;
    }
  }

  lemma LogsDifferIff(w: World)
    requires PastOk(w.past, w.shared) && w.disk.Some? && WrittenOk(w.past, w.disk.value)
    ensures UidsOf(w.disk.value.content.events) != w.shared.log <==> w.disk.value.content.counter != w.shared.counter
  {
    UidsOfFile(w);
    var from := w.past[w.disk.value.at];
    assert SharedOk(from) && SharedOk(w.past[|w.past| - 1]);
    if from.counter == w.shared.counter {
      assert from.log == w.shared.log;
    } else if from.counter > 0 && w.shared.counter > 0 {
      assert from.log[|from.log| - 1] == from.counter;
      assert w.shared.log[|w.shared.log| - 1] == w.shared.counter;
    }
  }

  lemma UidsOfFile(w: World)
    requires PastOk(w.past, w.shared) && w.disk.Some? && WrittenOk(w.past, w.disk.value)
    ensures UidsOf(w.disk.value.content.events) == w.past[w.disk.value.at].log
  {
    var from, events := w.past[w.disk.value.at], w.disk.value.content.events;
    assert SharedOk(from);
    forall k | 0 <= k < |events| ensures events[k].uid == from.log[k] {
      assert Later(from.heap[from.log[k]], events[k]);
    }
  }

  // ---------------------------------------------------------------- writes in the order of their copies

  /** The instant the file stands for; before the first write, the start. */
  function FileAt(w: World): nat {
    if w.disk.Some? then w.disk.value.at else 0
  }

  /** No write replaces a later copy by an earlier one. */
  ghost predicate InOrder(t: CharTable, start: State, threads: nat, labels: seq<Label>) {
    forall k :: 0 <= k < |labels| ==> Ordered(t, Run(t, start, threads, labels[..k]), labels[k])
  }

  predicate Ordered(t: CharTable, w: World, l: Label) {
    FileAt(w) <= FileAt(Step(t, w, l))
  }

  /** Nothing changed after instant `at`. */
  ghost predicate Settled(past: seq<Shared>, at: nat) {
    at < |past| && forall k :: at <= k < |past| ==> past[k] == past[|past| - 1]
  }

  /** This thread will still write, or is writing, a copy that lacks no change. */
  ghost predicate Saves(past: seq<Shared>, pc: Pc) {
    || pc.Saving?
    || (pc.AckingAll? && pc.marked > 0)
    || ((pc.Holding? || pc.Writing?) && Settled(past, pc.at))
  }

  /** Every change is in the file or will be. */
  ghost predicate Covered(w: World) {
    || Settled(w.past, FileAt(w))
    || exists i :: 0 <= i < |w.threads| && Saves(w.past, w.threads[i])
  }

  lemma SettledStays(past: seq<Shared>, at: nat, s: Shared)
    requires Settled(past, at) && past[|past| - 1] == s
    ensures Settled(past + [s], at)
  {
  }

  /** A thread that has changed something saves it. */
  lemma MoverSaves(w: World, i: nat)
    requires i < |w.threads| && Saves(w.past, w.threads[i])
    ensures Covered(w)
  {
  }

  lemma CoveredMoves(w: World, w': World, i: nat, pc: Pc)
    requires Covered(w) && |w.past| > 0 && w.past[|w.past| - 1] == w.shared
    requires i < |w.threads| && w'.threads == w.threads[i := pc]
    requires w'.shared == w.shared && w'.past == w.past + [w.shared]
    requires FileAt(w) <= FileAt(w') < |w'.past|
    requires Saves(w.past, w.threads[i]) ==> Saves(w'.past, pc) || Settled(w'.past, FileAt(w'))
    ensures Covered(w')
  {
    if Settled(w.past, FileAt(w)) {
      SettledStays(w.past, FileAt(w), w.shared);
    } else {
      var j :| 0 <= j < |w.threads| && Saves(w.past, w.threads[j]);
      if j == i {
        if Saves(w'.past, pc) { assert w'.threads[i] == pc; }
      } else {
        var other := w.threads[j];
        if (other.Holding? || other.Writing?) && Settled(w.past, other.at) { SettledStays(w.past, other.at, w.shared); }
        assert Saves(w'.past, w'.threads[j]);
      }
    }
  }

  lemma EnterCovered(t: CharTable, w: World, i: nat, call: Call)
    requires Inv(t, w) && Covered(w) && i < |w.threads| && w.threads[i].Idle?
    ensures Covered(EnterCall(t, w, i, call))
  {
    var w' := EnterCall(t, w, i, call);
    if w' != w {
      if w'.threads[i].Saving? { MoverSaves(w', i); } else { CoveredMoves(w, w', i, w'.threads[i]); }
    }
  }

  lemma RecordCovered(t: CharTable, w: World, i: nat)
    requires PastOk(w.past, w.shared) && FileAt(w) < |w.past| && Covered(w) && i < |w.threads| && Ordered(t, w, Continue(i))
    requires w.threads[i].Recording? || w.threads[i].Decided?
    ensures Covered(Next(t, w, i))
  {
    var w' := Next(t, w, i);
    if w' != w {
      if w'.threads[i].Saving? { MoverSaves(w', i); } else { CoveredMoves(w, w', i, w'.threads[i]); }
    }
  }

  lemma AckCovered(t: CharTable, w: World, i: nat)
    requires PastOk(w.past, w.shared) && FileAt(w) < |w.past| && Covered(w) && i < |w.threads| && Ordered(t, w, Continue(i))
    requires w.threads[i].AckingAll?
    ensures Covered(Next(t, w, i))
  {
    var w' := Next(t, w, i);
    if Saves(w'.past, w'.threads[i]) { MoverSaves(w', i); } else { CoveredMoves(w, w', i, w'.threads[i]); }
  }

  /** Nothing has changed since the present instant. */
  lemma CopyCovered(t: CharTable, w: World, i: nat)
    requires PastOk(w.past, w.shared) && FileAt(w) < |w.past| && Covered(w) && i < |w.threads| && w.threads[i].Saving?
    ensures Covered(Next(t, w, i))
  {
    if w.engineLock.None? { MoverSaves(Next(t, w, i), i); }
  }

  lemma WriteCovered(t: CharTable, w: World, i: nat)
    requires PastOk(w.past, w.shared) && FileAt(w) < |w.past| && Covered(w) && i < |w.threads| && Ordered(t, w, Continue(i))
    requires w.threads[i].Holding? || w.threads[i].Writing?
    requires w.threads[i].at < |w.past|
    ensures Covered(Next(t, w, i))
  {
    var pc, w' := w.threads[i], Next(t, w, i);
    if w' != w {
      if Settled(w.past, pc.at) { SettledStays(w.past, pc.at, w.shared); }
      CoveredMoves(w, w', i, w'.threads[i]);
    }
  }

  lemma NextCovered(t: CharTable, w: World, i: nat)
    requires Inv(t, w) && Covered(w) && i < |w.threads| && Ordered(t, w, Continue(i))
    ensures Covered(Next(t, w, i))
  {
    assert PcOk(t, w, w.threads[i]);
    match w.threads[i]
    case Idle =>
    case Recording(_, _, _, _) => RecordCovered(t, w, i);
    case Decided(_, _, _, _, _, _) => RecordCovered(t, w, i);
    case AckingAll(_, _, _) => AckCovered(t, w, i);
    case Saving => CopyCovered(t, w, i);
    case Holding(_, _) => WriteCovered(t, w, i);
    case Writing(_, _, _) => WriteCovered(t, w, i);
  }

  lemma {:induction false} RunCovered(t: CharTable, start: State, threads: nat, labels: seq<Label>)
    requires Ready(start)
    requires InOrder(t, start, threads, labels)
    ensures Covered(Run(t, start, threads, labels))
  {
    if labels != [] {
      var rest, l := labels[..|labels| - 1], labels[|labels| - 1];
      OrderedBefore(t, start, threads, labels);
      RunCovered(t, start, threads, rest);
      RunKeepsInv(t, start, threads, rest);
      var w := Run(t, start, threads, rest);
      assert Ordered(t, w, l);
      if l.thread < |w.threads| {
        if l.Continue? { NextCovered(t, w, l.thread); }
        else if w.threads[l.thread].Idle? { EnterCovered(t, w, l.thread, l.call); }
      }
    }
  }

  lemma OrderedBefore(t: CharTable, start: State, threads: nat, labels: seq<Label>)
    requires InOrder(t, start, threads, labels) && labels != []
    ensures InOrder(t, start, threads, labels[..|labels| - 1])
  {
    var rest := labels[..|labels| - 1];
    forall k | 0 <= k < |rest| ensures Ordered(t, Run(t, start, threads, rest[..k]), rest[k]) {
      assert rest[..k] == labels[..k] && rest[k] == labels[k];
    }
  }

  ghost predicate AllIdle(w: World) {
    forall i :: 0 <= i < |w.threads| ==> w.threads[i].Idle?
  }

  /** Shared part and file as one state of the engine. */
  function StateOf(s: Shared, disk: Option<Written>, seeded: bool): State
    requires SharedOk(s)
  {
    State(Objects(s), s.counter, s.honey, if disk.Some? then Some(disk.value.content) else None, true, seeded)
  }

  /** The engine's present state, flags included, with the file behind it. */
  function Present(w: World, seeded: bool): State
    requires SharedOk(w.shared)
  {
    StateOf(w.shared, w.disk, seeded)
  }

  /** Each flag was read after the last change, so it is the present one. */
  lemma SettledFile(w: World)
    requires PastOk(w.past, w.shared) && w.disk.Some? && WrittenOk(w.past, w.disk.value)
    requires Settled(w.past, w.disk.value.at) && SharedOk(w.shared)
    ensures w.disk.value.content == Snapshot(w.shared.counter, w.shared.honey, Objects(w.shared))
  {
    var d := w.disk.value;
    assert w.past[d.at] == w.shared == w.past[d.when];
    forall k | 0 <= k < |d.content.events| ensures d.content.events[k] == Objects(w.shared)[k] {
      assert Later(w.past[d.at].heap[w.shared.log[k]], d.content.events[k]);
    }
  }

  lemma {:induction false} FileStays(t: CharTable, start: State, threads: nat, labels: seq<Label>)
    requires start.disk.Some?
    ensures Run(t, start, threads, labels).disk.Some?
  {
    if labels != [] {
      FileStays(t, start, threads, labels[..|labels| - 1]);
    }
  }

  /** Nothing has changed since the start, and there was nothing at the start. */
  lemma NeverWritten(t: CharTable, start: State, threads: nat, labels: seq<Label>, times: nat -> string)
    requires Ready(start) && Run(t, start, threads, labels).disk.None?
    requires Settled(Run(t, start, threads, labels).past, 0) && SharedOk(Run(t, start, threads, labels).shared)
    requires var w := Run(t, start, threads, labels); w.past[|w.past| - 1] == w.shared
    ensures var w := Run(t, start, threads, labels);
      Restarted(w, start.seeded, times) == Present(w, start.seeded)
  {
    if start.disk.Some? {
      FileStays(t, start, threads, labels);
    }
    FirstInstant(t, start, threads, labels);
    assert Objects(Run(t, start, threads, labels).shared) == [];
  }

  /** If snapshots are written in the order of their copies, then whenever every call has
      returned a restart is invisible: events, flags, registry and counter are the present ones. */
  lemma OrderedWritesMakeRestartsInvisible(t: CharTable, start: State, threads: nat, labels: seq<Label>, times: nat -> string)
    requires Ready(start)
    requires InOrder(t, start, threads, labels) && AllIdle(Run(t, start, threads, labels))
    ensures var w := Run(t, start, threads, labels);
      SharedOk(w.shared) && Restarted(w, start.seeded, times) == Present(w, start.seeded)
  {
    RunKeepsInv(t, start, threads, labels);
    RunCovered(t, start, threads, labels);
    var w := Run(t, start, threads, labels);
    assert SharedOk(w.past[|w.past| - 1]);
    if w.disk.Some? {
      SettledFile(w);
      RestartedOnFile(t, start, threads, labels, times);
    } else {
      NeverWritten(t, start, threads, labels, times);
    }
  }
}
